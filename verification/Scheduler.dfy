/** The task scheduler: one thread collects the due tasks under the lock, runs
    their callbacks unlocked and erases the one-shots; callbacks and other
    threads add and remove tasks in between. Time is in nanoseconds. */
module Scheduler {
  import opened Sequences

  const MIN_INTERVAL: nat := 15_000_000

  function Clamp(interval: int): nat {
    if interval <= MIN_INTERVAL then MIN_INTERVAL else interval
  }

  datatype Task = Task(interval: nat, due: nat, once: bool)

  /** When and with what a task was added. */
  datatype Request = Request(at: nat, interval: int, once: bool)

  /** A pass whose callbacks are being run: those left, the one-shots to erase,
      the time to sleep until, and the ids the pass has looked at. */
  datatype Pass = Pass(todo: seq<nat>, oneShots: seq<nat>, wake: Option<nat>, scanned: set<nat>)

  /** The thread sleeps, until `wake` if that is given; a notification wakes it, and
      is lost on a thread that is not asleep. */
  datatype Thread = Waiting(wake: Option<nat>, notified: bool) | Running(pass: Pass)

  /** `owed`: the notifications still to come from threads that have changed the
      table and released the lock. */
  datatype State = State(
    clock: nat,
    nextId: nat,
    requested: map<nat, Request>,
    adding: map<nat, Task>,
    tasks: map<nat, Task>,
    thread: Thread,
    owed: nat,
    fired: map<nat, seq<nat>>)

  const START := State(0, 1, map[], map[], map[], Waiting(None, false), 0, map[])

  datatype Action =
    | Tick(elapsed: nat)
    | Stamp(interval: int, once: bool)
    | Emplace(id: nat)
    | Remove(id: nat)
    | Notify
    | Collect(order: seq<nat>)
    | RunCallback
    | EndPass

  // ------------------------------------------------------------------ one pass

  /** What the loop over the task table has gathered so far. */
  datatype Gathered = Gathered(tasks: map<nat, Task>, callbacks: seq<nat>, oneShots: seq<nat>, wake: Option<nat>)

  function Earlier(wake: Option<nat>, time: nat): Option<nat> {
    if wake.Some? && wake.value <= time then wake else Some(time)
  }

  function Visit(g: Gathered, id: nat, now: nat): Gathered
    requires id in g.tasks
  {
    var task := g.tasks[id];
    if now >= task.due then
      var again := task.(due := now + task.interval);
      var h := g.(tasks := g.tasks[id := again], callbacks := g.callbacks + [id]);
      if task.once then h.(oneShots := h.oneShots + [id]) else h.(wake := Earlier(h.wake, again.due))
    else g.(wake := Earlier(g.wake, task.due))
  }

  /** The loop of a pass, over the table in whatever order it is stored. */
  function Scan(tasks: map<nat, Task>, order: seq<nat>, now: nat): (g: Gathered)
    requires forall id | id in order :: id in tasks
    ensures g.tasks.Keys == tasks.Keys
    decreases |order|
  {
    if order == [] then Gathered(tasks, [], [], None)
    else
      var last := order[|order| - 1];
      Visit(Scan(tasks, order[..|order| - 1], now), last, now)
  }

  ghost predicate Enumerates(order: seq<nat>, ids: set<nat>) {
    && (forall i, j | 0 <= i < j < |order| :: order[i] != order[j])
    && (forall id :: id in order <==> id in ids)
  }

  predicate IsDue(tasks: map<nat, Task>, id: nat, now: nat) {
    id in tasks && now >= tasks[id].due
  }

  function Rescheduled(task: Task, now: nat): Task {
    if now >= task.due then task.(due := now + task.interval) else task
  }

  predicate Survives(tasks: map<nat, Task>, id: nat, now: nat) {
    id in tasks && (now < tasks[id].due || !tasks[id].once)
  }

  /** No survivor is due before the wake time. */
  predicate WakesFor(wake: Option<nat>, task: Task) {
    wake.Some? && wake.value <= task.due
  }

  // ----------------------------------------------------------------- the steps

  function Erased(tasks: map<nat, Task>, ids: seq<nat>): map<nat, Task> {
    map id | id in tasks && id !in ids :: tasks[id]
  }

  function Notified(thread: Thread): Thread {
    if thread.Waiting? then thread.(notified := true) else thread
  }

  function Fired(s: State, id: nat): seq<nat> {
    if id in s.fired then s.fired[id] else []
  }

  ghost predicate Enabled(s: State, a: Action) {
    match a
    case Tick(_) => true
    case Stamp(_, _) => true
    case Emplace(id) => id in s.adding
    case Remove(_) => true
    case Notify => s.owed > 0
    case Collect(order) => s.thread.Waiting? && s.tasks != map[] && Enumerates(order, s.tasks.Keys)
    case RunCallback => s.thread.Running? && s.thread.pass.todo != []
    case EndPass => s.thread.Running? && s.thread.pass.todo == []
  }

  /** AddTask reads the clock before it takes the lock, so the task enters the table
      in a later step; it and RemoveTask notify after they have released the lock, so
      that is a later step again. */
  ghost function Step(s: State, a: Action): State
    requires Enabled(s, a)
  {
    match a
    case Tick(elapsed) => s.(clock := s.clock + elapsed)
    case Stamp(interval, once) =>
      s.(nextId := s.nextId + 1,
         requested := s.requested[s.nextId := Request(s.clock, interval, once)],
         adding := s.adding[s.nextId := Task(Clamp(interval), s.clock + Clamp(interval), once)])
    case Emplace(id) =>
      s.(tasks := s.tasks[id := s.adding[id]], adding := s.adding - {id}, owed := s.owed + 1)
    case Remove(id) => s.(tasks := s.tasks - {id}, owed := s.owed + 1)
    case Notify => s.(thread := Notified(s.thread), owed := s.owed - 1)
    case Collect(order) =>
      var g := Scan(s.tasks, order, s.clock);
      s.(tasks := g.tasks, thread := Running(Pass(g.callbacks, g.oneShots, g.wake, s.tasks.Keys)))
    case RunCallback =>
      var id := s.thread.pass.todo[0];
      s.(thread := Running(s.thread.pass.(todo := s.thread.pass.todo[1..])),
         fired := s.fired[id := Fired(s, id) + [s.clock]])
    case EndPass => s.(tasks := Erased(s.tasks, s.thread.pass.oneShots), thread := Waiting(s.thread.pass.wake, false))
  }

  ghost predicate Runs(s: State, actions: seq<Action>)
    decreases |actions|
  {
    actions == [] || (Enabled(s, actions[0]) && Runs(Step(s, actions[0]), actions[1..]))
  }

  ghost function Exec(s: State, actions: seq<Action>): State
    requires Runs(s, actions)
    decreases |actions|
  {
    if actions == [] then s else Exec(Step(s, actions[0]), actions[1..])
  }

  // ------------------------------------------------- what one pass comes down to

  lemma WakeOfVisit(wake: Option<nat>, time: nat)
    ensures var w := Earlier(wake, time);
      && w.Some? && w.value <= time && (wake.Some? ==> w.value <= wake.value)
      && (w.value == time || w == wake)
  {
  }

  /** What the loop has gathered after looking at the ids of `order`. */
  ghost predicate ScanOk(tasks: map<nat, Task>, order: seq<nat>, now: nat, g: Gathered) {
    && g.tasks.Keys == tasks.Keys
    && (forall id | id in tasks :: g.tasks[id] == if id in order then Rescheduled(tasks[id], now) else tasks[id])
    && (forall id :: id in g.callbacks <==> id in order && IsDue(tasks, id, now))
    && (forall i, j | 0 <= i < j < |g.callbacks| :: g.callbacks[i] != g.callbacks[j])
    && (forall id :: id in g.oneShots <==> id in order && IsDue(tasks, id, now) && tasks[id].once)
    && (forall id | id in order && Survives(tasks, id, now) :: WakesFor(g.wake, Rescheduled(tasks[id], now)))
    && (g.wake.Some? ==> exists id :: id in order && Survives(tasks, id, now) && g.wake.value == Rescheduled(tasks[id], now).due)
  }

  /** A pass collects exactly the due tasks, each once, puts them off by their
      interval, marks exactly the due one-shots for erasure, and its wake time is
      the earliest due time among the tasks that stay. */
  lemma {:induction false} PassIsExact(tasks: map<nat, Task>, order: seq<nat>, now: nat)
    requires forall id | id in order :: id in tasks
    requires forall i, j | 0 <= i < j < |order| :: order[i] != order[j]
    ensures ScanOk(tasks, order, now, Scan(tasks, order, now))
    decreases |order|
  {
    if order != [] {
      var front := order[..|order| - 1];
      PassIsExact(tasks, front, now);
      hide Scan;
      VisitKeeps(tasks, front, order[|order| - 1], now, Scan(tasks, front, now));
      assert order == front + [order[|order| - 1]];
      ScanLast(tasks, order, now);
    }
  }

  lemma ScanLast(tasks: map<nat, Task>, order: seq<nat>, now: nat)
    requires order != [] && forall id | id in order :: id in tasks
    ensures Scan(tasks, order, now) == Visit(Scan(tasks, order[..|order| - 1], now), order[|order| - 1], now)
  {
  }

  lemma VisitKeeps(tasks: map<nat, Task>, front: seq<nat>, last: nat, now: nat, g: Gathered)
    requires last in tasks && last !in front && forall id | id in front :: id in tasks
    requires ScanOk(tasks, front, now, g)
    ensures ScanOk(tasks, front + [last], now, Visit(g, last, now))
  {
    var h := Visit(g, last, now);
    var order := front + [last];
    WakeOfVisit(g.wake, Rescheduled(tasks[last], now).due);
    assert forall id :: id in order <==> id in front || id == last;
    assert h.wake == if Survives(tasks, last, now) then Earlier(g.wake, Rescheduled(tasks[last], now).due) else g.wake;
    assert forall id :: id in h.callbacks <==> id in g.callbacks || (id == last && IsDue(tasks, last, now));
    assert forall id :: id in h.oneShots <==> id in g.oneShots || (id == last && IsDue(tasks, last, now) && tasks[last].once);
    hide Visit, Earlier;
  }
}
