/** What the scheduler guarantees over every run: how often a task fires, that a
    removed task stays silent, and that no due task is slept past. */
module SchedulerRuns {
  import opened Sequences
  import opened Scheduler

  /** The time before which a task may not fire for the k-th time. */
  function Mark(q: Request, k: nat): nat {
    q.at + k * Clamp(q.interval)
  }

  lemma MarkNext(q: Request, k: nat)
    ensures Mark(q, k + 1) == Mark(q, k) + Clamp(q.interval)
  {
  }

  predicate InPass(s: State, id: nat) {
    s.thread.Running? && id in s.thread.pass.todo
  }

  /** Firings of a task that have happened or are already decided. */
  function Collected(s: State, id: nat): nat {
    |Fired(s, id)| + if InPass(s, id) then 1 else 0
  }

  predicate Matches(task: Task, q: Request) {
    task.interval == Clamp(q.interval) && task.once == q.once
  }

  ghost predicate FiringsOk(s: State, id: nat)
    requires id in s.requested
  {
    forall k | 0 <= k < |Fired(s, id)| :: Fired(s, id)[k] >= Mark(s.requested[id], k + 1)
  }

  /** A scheduled task is due only after the firings it has had already. */
  predicate DueOk(s: State, id: nat)
    requires id in s.requested
  {
    && (id in s.tasks ==>
          Matches(s.tasks[id], s.requested[id]) && s.tasks[id].due >= Mark(s.requested[id], Collected(s, id) + 1))
    && (id in s.adding ==>
          Matches(s.adding[id], s.requested[id]) && s.adding[id].due >= Mark(s.requested[id], 1)
          && Collected(s, id) == 0 && id !in s.tasks)
    && (InPass(s, id) ==> s.clock >= Mark(s.requested[id], Collected(s, id)))
  }

  /** A one-shot that has been collected is out of the table or about to be. */
  predicate OnceOk(s: State, id: nat)
    requires id in s.requested
  {
    s.requested[id].once ==>
      Collected(s, id) <= 1
      && (Collected(s, id) == 1 && id in s.tasks ==> s.thread.Running? && id in s.thread.pass.oneShots)
  }

  ghost predicate IdsOk(s: State) {
    && (forall id | id in s.requested :: id < s.nextId)
    && (forall id | id in s.tasks || id in s.adding || id in s.fired || InPass(s, id) :: id in s.requested)
    && (s.thread.Running? ==>
          forall i, j | 0 <= i < j < |s.thread.pass.todo| :: s.thread.pass.todo[i] != s.thread.pass.todo[j])
  }

  ghost predicate Inv(s: State) {
    IdsOk(s) && forall id | id in s.requested :: FiringsOk(s, id) && DueOk(s, id) && OnceOk(s, id)
  }

  // ------------------------------------------------------------ steps keep it

  /** A step that leaves the firings and the pass alone and lets time pass. */
  lemma Untouched(s: State, t: State, id: nat)
    requires id in s.requested && id in t.requested && t.requested[id] == s.requested[id]
    requires FiringsOk(s, id) && DueOk(s, id) && OnceOk(s, id)
    requires Fired(t, id) == Fired(s, id) && t.clock >= s.clock
    requires InPass(t, id) == InPass(s, id)
    requires id in t.tasks ==> id in s.tasks && t.tasks[id] == s.tasks[id]
    requires id in t.adding ==> id in s.adding && t.adding[id] == s.adding[id]
    requires s.thread.Running? ==> t.thread.Running? && t.thread.pass.oneShots == s.thread.pass.oneShots
    ensures FiringsOk(t, id) && DueOk(t, id) && OnceOk(t, id)
  {
    hide Mark, InPass;
  }

  lemma TickKeeps(s: State, elapsed: nat)
    requires Inv(s)
    ensures Inv(Step(s, Tick(elapsed)))
  {
    var t := Step(s, Tick(elapsed));
    forall id | id in t.requested ensures FiringsOk(t, id) && DueOk(t, id) && OnceOk(t, id) {
      Untouched(s, t, id);
    }
    hide FiringsOk, DueOk, OnceOk;
  }

  lemma StampKeeps(s: State, interval: int, once: bool)
    requires Inv(s)
    ensures Inv(Step(s, Stamp(interval, once)))
  {
    var t := Step(s, Stamp(interval, once));
    forall id | id in t.requested ensures FiringsOk(t, id) && DueOk(t, id) && OnceOk(t, id) {
      if id == s.nextId {
        assert id !in s.requested;
        assert Fired(t, id) == [] && !InPass(t, id) && id !in t.tasks;
        MarkNext(t.requested[id], 0);
      } else {
        Untouched(s, t, id);
      }
    }
    hide FiringsOk, DueOk, OnceOk;
  }

  lemma EmplaceKeeps(s: State, id: nat)
    requires Inv(s) && Enabled(s, Emplace(id))
    ensures Inv(Step(s, Emplace(id)))
  {
    var t := Step(s, Emplace(id));
    forall q | q in t.requested ensures FiringsOk(t, q) && DueOk(t, q) && OnceOk(t, q) {
      if q == id {
        assert Fired(t, q) == Fired(s, q) && InPass(t, q) == InPass(s, q);
        assert FiringsOk(s, q) && DueOk(s, q);
      } else {
        Untouched(s, t, q);
      }
    }
    hide FiringsOk, DueOk, OnceOk;
  }

  lemma NotifyKeeps(s: State)
    requires Inv(s) && Enabled(s, Notify)
    ensures Inv(Step(s, Notify))
  {
    var t := Step(s, Notify);
    forall q | q in t.requested ensures FiringsOk(t, q) && DueOk(t, q) && OnceOk(t, q) {
      Untouched(s, t, q);
    }
    hide FiringsOk, DueOk, OnceOk;
  }

  lemma RemoveKeeps(s: State, id: nat)
    requires Inv(s)
    ensures Inv(Step(s, Remove(id)))
  {
    var t := Step(s, Remove(id));
    forall q | q in t.requested ensures FiringsOk(t, q) && DueOk(t, q) && OnceOk(t, q) {
      Untouched(s, t, q);
    }
    hide FiringsOk, DueOk, OnceOk;
  }

  /** A Collect step, by what it does to each part of the state. */
  lemma CollectFacts(s: State, order: seq<nat>)
    requires Enabled(s, Collect(order))
    ensures var t := Step(s, Collect(order));
      && t == s.(tasks := t.tasks, thread := t.thread) && t.tasks.Keys == s.tasks.Keys
      && s.thread.Waiting? && t.thread.Running? && t.thread.pass.scanned == s.tasks.Keys
      && (forall id | id in s.tasks :: t.tasks[id] == Rescheduled(s.tasks[id], s.clock))
      && (forall id :: id in t.thread.pass.todo <==> IsDue(s.tasks, id, s.clock))
      && (forall id :: id in t.thread.pass.oneShots <==> IsDue(s.tasks, id, s.clock) && s.tasks[id].once)
      && (forall i, j | 0 <= i < j < |t.thread.pass.todo| :: t.thread.pass.todo[i] != t.thread.pass.todo[j])
  {
    PassIsExact(s.tasks, order, s.clock);
    hide Scan;
  }

  /** What a pass does to one task: nothing, or it is put off and will fire. */
  lemma CollectTask(s: State, order: seq<nat>, id: nat)
    requires Inv(s) && Enabled(s, Collect(order)) && id in s.requested
    ensures var t := Step(s, Collect(order)); FiringsOk(t, id) && DueOk(t, id) && OnceOk(t, id)
  {
    var t := Step(s, Collect(order));
    CollectFacts(s, order);
    hide Step, Enabled;
    assert FiringsOk(s, id) && DueOk(s, id) && OnceOk(s, id);
    assert Fired(t, id) == Fired(s, id);
    CollectedTask(s, t, id);
  }

  lemma CollectedTask(s: State, t: State, id: nat)
    requires id in s.requested && FiringsOk(s, id) && DueOk(s, id) && OnceOk(s, id)
    requires t.requested == s.requested && t.adding == s.adding && t.clock == s.clock
    requires s.thread.Waiting? && t.thread.Running? && Fired(t, id) == Fired(s, id)
    requires InPass(t, id) <==> IsDue(s.tasks, id, s.clock)
    requires id in s.tasks <==> id in t.tasks
    requires id in s.tasks ==> t.tasks[id] == Rescheduled(s.tasks[id], s.clock)
    requires IsDue(s.tasks, id, s.clock) && s.tasks[id].once ==> id in t.thread.pass.oneShots
    ensures FiringsOk(t, id) && DueOk(t, id) && OnceOk(t, id)
  {
    MarkNext(s.requested[id], Collected(s, id) + 1);
    hide Mark;
  }

  lemma CollectKeeps(s: State, order: seq<nat>)
    requires Inv(s) && Enabled(s, Collect(order))
    ensures Inv(Step(s, Collect(order)))
  {
    var t := Step(s, Collect(order));
    forall id | id in t.requested ensures FiringsOk(t, id) && DueOk(t, id) && OnceOk(t, id) {
      CollectTask(s, order, id);
    }
    CollectFacts(s, order);
    hide Step, Enabled, FiringsOk, DueOk, OnceOk;
  }

  /** The callback at the head of the list fires now; the others are unchanged. */
  lemma RunCallbackTask(s: State, id: nat)
    requires Inv(s) && Enabled(s, RunCallback) && id in s.requested
    ensures var t := Step(s, RunCallback); FiringsOk(t, id) && DueOk(t, id) && OnceOk(t, id)
  {
    var t := Step(s, RunCallback);
    var head := s.thread.pass.todo[0];
    if id == head {
      assert InPass(s, id) && !InPass(t, id);
      assert Fired(t, id) == Fired(s, id) + [s.clock];
      assert Collected(t, id) == Collected(s, id);
      assert FiringsOk(s, id) && DueOk(s, id) && OnceOk(s, id);
    } else {
      assert InPass(s, id) <==> InPass(t, id);
      Untouched(s, t, id);
    }
  }

  lemma RunCallbackKeeps(s: State)
    requires Inv(s) && Enabled(s, RunCallback)
    ensures Inv(Step(s, RunCallback))
  {
    var t := Step(s, RunCallback);
    forall id | id in t.requested ensures FiringsOk(t, id) && DueOk(t, id) && OnceOk(t, id) {
      RunCallbackTask(s, id);
    }
    hide FiringsOk, DueOk, OnceOk;
    assert InPass(s, s.thread.pass.todo[0]);
  }

  lemma EndPassKeeps(s: State)
    requires Inv(s) && Enabled(s, EndPass)
    ensures Inv(Step(s, EndPass))
  {
    var t := Step(s, EndPass);
    forall id | id in t.requested ensures FiringsOk(t, id) && DueOk(t, id) && OnceOk(t, id) {
      assert FiringsOk(s, id) && DueOk(s, id) && OnceOk(s, id);
      assert InPass(t, id) == InPass(s, id) && Fired(t, id) == Fired(s, id);
    }
    hide FiringsOk, DueOk, OnceOk;
  }

  lemma StepKeeps(s: State, a: Action)
    requires Inv(s) && Enabled(s, a)
    ensures Inv(Step(s, a))
  {
    hide Inv, Step, Enabled;
    match a
    case Tick(elapsed) => TickKeeps(s, elapsed);
    case Stamp(interval, once) => StampKeeps(s, interval, once);
    case Emplace(id) => EmplaceKeeps(s, id);
    case Remove(id) => RemoveKeeps(s, id);
    case Notify => NotifyKeeps(s);
    case Collect(order) => CollectKeeps(s, order);
    case RunCallback => RunCallbackKeeps(s);
    case EndPass => EndPassKeeps(s);
  }

  lemma {:induction false} RunKeeps(s: State, actions: seq<Action>)
    requires Inv(s) && Runs(s, actions)
    ensures Inv(Exec(s, actions))
    decreases |actions|
  {
    hide Inv, Step, Enabled;
    if actions != [] {
      StepKeeps(s, actions[0]);
      RunKeeps(Step(s, actions[0]), actions[1..]);
    }
  }

  // ------------------------------------------------------------------- theorems

  /** A clamped interval is no shorter than the interval and than 15 ms. */
  lemma ClampedMark(q: Request, k: nat)
    ensures Mark(q, k) >= q.at + k * q.interval && Mark(q, k) >= q.at + k * 15_000_000
    ensures Clamp(q.interval) == if q.interval <= 15_000_000 then 15_000_000 else q.interval
  {
    TimesMore(k, q.interval, Clamp(q.interval));
    TimesMore(k, 15_000_000, Clamp(q.interval));
  }

  lemma TimesMore(k: nat, a: int, b: int)
    requires a <= b
    ensures k * a <= k * b
  {
    assert k * (b - a) >= 0;
  }

  /** In every run, whatever other threads and callbacks add and remove, the k-th
      firing of a task comes no earlier than k of its intervals, and than k times
      15 ms, after it was added, and a one-shot fires once at most. */
  lemma RateIsBounded(actions: seq<Action>, id: nat, k: nat)
    requires Runs(START, actions)
    requires k < |Fired(Exec(START, actions), id)|
    ensures var s := Exec(START, actions);
      && id in s.requested
      && Fired(s, id)[k] >= s.requested[id].at + (k + 1) * s.requested[id].interval
      && Fired(s, id)[k] >= s.requested[id].at + (k + 1) * 15_000_000
      && (s.requested[id].once ==> |Fired(s, id)| == 1)
  {
    assert Inv(START);
    RunKeeps(START, actions);
    var s := Exec(START, actions);
    hide Exec, Runs;
    assert id in s.fired;
    assert FiringsOk(s, id) && OnceOk(s, id);
    ClampedMark(s.requested[id], k + 1);
    hide Mark, Fired;
  }

  /** The id is known and its task is neither in the table, nor about to enter
      it, nor collected. */
  predicate Silent(s: State, id: nat) {
    id < s.nextId && id !in s.adding && id !in s.tasks && !InPass(s, id)
  }

  lemma SilentStep(s: State, a: Action, id: nat)
    requires Silent(s, id) && Enabled(s, a)
    ensures Silent(Step(s, a), id) && Fired(Step(s, a), id) == Fired(s, id)
  {
    if a.Collect? { PassIsExact(s.tasks, a.order, s.clock); }
    hide Scan;
  }

  lemma {:induction false} SilentRun(s: State, actions: seq<Action>, id: nat)
    requires Silent(s, id) && Runs(s, actions)
    ensures Fired(Exec(s, actions), id) == Fired(s, id)
    decreases |actions|
  {
    hide Silent, Step, Enabled, Fired;
    if actions != [] {
      SilentStep(s, actions[0], id);
      SilentRun(Step(s, actions[0]), actions[1..], id);
    }
  }

  /** A task removed before a pass collects it never fires again, whatever
      happens afterwards. */
  lemma RemovedNeverFires(s: State, id: nat, actions: seq<Action>)
    requires Inv(s) && id in s.tasks && !InPass(s, id)
    requires Runs(Step(s, Remove(id)), actions)
    ensures Fired(Exec(Step(s, Remove(id)), actions), id) == Fired(s, id)
  {
    var t := Step(s, Remove(id));
    assert DueOk(s, id);
    assert Silent(t, id) && Fired(t, id) == Fired(s, id);
    SilentRun(t, actions, id);
  }

  // ------------------------------------------------------------------ waking up

  /** The task will not be slept past: the thread is awake, or will be woken, or
      wakes in time. */
  predicate Watched(s: State, id: nat)
    requires id in s.tasks
  {
    match s.thread
    case Waiting(wake, notified) => notified || s.owed > 0 || WakesFor(wake, s.tasks[id])
    case Running(pass) => id in pass.oneShots || WakesFor(pass.wake, s.tasks[id])
  }

  ghost predicate AllWatched(s: State) {
    forall id | id in s.tasks :: Watched(s, id)
  }

  /** No task enters the table while callbacks run. */
  predicate Quiet(s: State, a: Action) {
    a.Emplace? ==> s.thread.Waiting?
  }

  ghost predicate QuietRun(s: State, actions: seq<Action>)
    requires Runs(s, actions)
    decreases |actions|
  {
    actions == [] || (Quiet(s, actions[0]) && QuietRun(Step(s, actions[0]), actions[1..]))
  }

  /** A pass watches every task it found, due or not. */
  lemma CollectWatches(s: State, order: seq<nat>)
    requires Enabled(s, Collect(order))
    ensures AllWatched(Step(s, Collect(order)))
  {
    var t := Step(s, Collect(order));
    PassIsExact(s.tasks, order, s.clock);
    hide Scan;
    forall id | id in t.tasks ensures Watched(t, id) {
      assert id in order;
      assert !Survives(s.tasks, id, s.clock) ==> id in t.thread.pass.oneShots;
    }
  }

  lemma WatchedStep(s: State, a: Action)
    requires AllWatched(s) && Enabled(s, a) && Quiet(s, a)
    ensures AllWatched(Step(s, a))
  {
    if a.Collect? {
      CollectWatches(s, a.order);
    } else {
      hide Scan;
    }
  }

  lemma {:induction false} WatchedRun(s: State, actions: seq<Action>)
    requires AllWatched(s) && Runs(s, actions) && QuietRun(s, actions)
    ensures AllWatched(Exec(s, actions))
    decreases |actions|
  {
    hide AllWatched, Step, Enabled, Quiet;
    if actions != [] {
      WatchedStep(s, actions[0]);
      WatchedRun(Step(s, actions[0]), actions[1..]);
    }
  }

  /** In every run in which no task is added while callbacks run, a sleeping thread
      that has not been notified and will not be wakes no later than any task of the
      table is due: no task is slept past. */
  lemma NoTaskIsSleptPast(actions: seq<Action>, id: nat)
    requires Runs(START, actions) && QuietRun(START, actions)
    ensures var s := Exec(START, actions);
      id in s.tasks && s.thread.Waiting? && !s.thread.notified && s.owed == 0 ==>
        s.thread.wake.Some? && s.thread.wake.value <= s.tasks[id].due
  {
    assert AllWatched(START);
    WatchedRun(START, actions);
  }

  /** The tasks that entered the table since the pass looked at it. */
  predicate Added(s: State, id: nat)
    requires s.thread.Running?
  {
    id in s.tasks && id !in s.thread.pass.scanned
  }

  /** During a pass: what the pass found is watched, and nothing it found is
      confused with what was added since. */
  ghost predicate ScannedWatched(s: State) {
    s.thread.Running? ==>
      && (forall id | id in s.tasks && id in s.thread.pass.scanned :: Watched(s, id))
      && (forall id | id in s.thread.pass.oneShots :: id in s.thread.pass.scanned)
      && (forall id | id in s.adding :: id !in s.thread.pass.scanned)
      && (forall id | id in s.thread.pass.scanned :: id < s.nextId)
  }

  lemma ScannedStep(s: State, a: Action)
    requires Inv(s) && ScannedWatched(s) && Enabled(s, a)
    ensures ScannedWatched(Step(s, a))
  {
    if a.Collect? {
      ScannedCollect(s, a.order);
    } else {
      hide Scan, FiringsOk, DueOk, OnceOk;
    }
  }

  lemma ScannedCollect(s: State, order: seq<nat>)
    requires Inv(s) && Enabled(s, Collect(order))
    ensures ScannedWatched(Step(s, Collect(order)))
  {
    var t := Step(s, Collect(order));
    CollectWatches(s, order);
    CollectFacts(s, order);
    hide Step, Enabled, FiringsOk, OnceOk, Watched;
    forall id | id in t.adding ensures id !in t.thread.pass.scanned {
      assert DueOk(s, id);
    }
  }

  lemma {:induction false} ScannedRun(s: State, actions: seq<Action>)
    requires Inv(s) && ScannedWatched(s) && Runs(s, actions)
    ensures Inv(Exec(s, actions)) && ScannedWatched(Exec(s, actions))
    decreases |actions|
  {
    hide Inv, ScannedWatched, Step, Enabled;
    if actions != [] {
      StepKeeps(s, actions[0]);
      ScannedStep(s, actions[0]);
      ScannedRun(Step(s, actions[0]), actions[1..]);
    }
  }

  /** Exactly when the sleep that ends a pass is safe, in every run: it passes no
      task if and only if a notification is still to come, or every task that entered
      the table while callbacks ran and is still there is due no earlier than the wake
      time already computed. */
  lemma SleepSafeIffAddedLater(actions: seq<Action>)
    requires Runs(START, actions) && Enabled(Exec(START, actions), EndPass)
    ensures var s := Exec(START, actions);
      AllWatched(Step(s, EndPass)) <==>
        s.owed > 0 || forall id | Added(s, id) :: WakesFor(s.thread.pass.wake, s.tasks[id])
  {
    ScannedRun(START, actions);
    var s := Exec(START, actions);
    var t := Step(s, EndPass);
    hide Exec, Runs, Inv;
    forall id | id in t.tasks && !Added(s, id) ensures Watched(t, id) {
      assert Watched(s, id);
    }
    forall id | Added(s, id)
      ensures id in t.tasks && (Watched(t, id) <==> s.owed > 0 || WakesFor(s.thread.pass.wake, s.tasks[id]))
    {
    }
  }
}
