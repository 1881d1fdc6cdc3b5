/** Remote calls on the real scheduler: the completion protocol and the scheduler
    composed. A timeout is a one-shot task; collecting, running and erasing it are
    the scheduler's steps, so time enters the protocol. */
module RpcTimeouts {
  import opened Sequences
  import R = Rpc
  import RR = RpcRuns
  import S = Scheduler
  import SR = SchedulerRuns

  /** The scheduler's id of each timeout task and of each request's stamp, and when
      a call was claimed by its timeout. */
  datatype State = State(rpc: R.State, sched: S.State, ids: map<nat, nat>, stamped: map<nat, nat>, timedOut: map<nat, nat>)

  const START := State(R.START, S.START, map[], map[], map[])

  datatype Action =
    | Protocol(a: R.Action)
    | Stamp(r: nat, duration: int)
    | Emplace(r: nat)
    | Remove(r: nat)
    | Collect(order: seq<nat>)
    | Fire(t: nat)
    | FireOther
    | EndPass
    | Elsewhere(b: S.Action)

  /** Steps of the protocol that do not touch the scheduler. */
  predicate Separate(a: R.Action) {
    !a.AddTask? && !a.Collect? && !a.RunTimeout? && !a.EraseTask? && !a.RemoveTask?
  }

  predicate Marked(s: S.State, id: nat) {
    s.thread.Running? && id in s.thread.pass.oneShots
  }

  ghost predicate Enabled(s: State, a: Action) {
    match a
    case Protocol(b) => Separate(b) && R.Enabled(s.rpc, b)
    case Stamp(r, _) => R.Enabled(s.rpc, R.AddTask(r)) && r !in s.stamped
    case Emplace(r) => R.Enabled(s.rpc, R.AddTask(r)) && r in s.stamped && s.stamped[r] in s.sched.adding
    case Remove(r) => R.Enabled(s.rpc, R.RemoveTask(r))
    case Collect(order) => S.Enabled(s.sched, S.Collect(order))
    case Fire(t) => S.Enabled(s.sched, S.RunCallback) && t in s.ids && s.ids[t] == s.sched.thread.pass.todo[0]
    case FireOther => S.Enabled(s.sched, S.RunCallback) && s.sched.thread.pass.todo[0] !in s.ids.Values
    case EndPass => S.Enabled(s.sched, S.EndPass)
    case Elsewhere(b) =>
      && S.Enabled(s.sched, b)
      && (b.Tick? || b.Stamp? || b.Notify? || (b.Emplace? && b.id !in s.stamped.Values) || (b.Remove? && b.id !in s.ids.Values))
  }

  /** The timeouts among the tasks a pass has collected. */
  function Gathered(ids: map<nat, nat>, todo: seq<nat>): set<nat> {
    set t | t in ids && ids[t] in todo
  }

  /** The timeout's callback: it claims the call if that is still pending. */
  function Claimed(rpc: R.State, t: nat): R.State
    requires t in rpc.owner
  {
    R.Claim(rpc.(collected := rpc.collected - {t}), rpc.owner[t], R.Timeout, None)
  }

  /** The task a call's timeout handler had, if any. */
  function Handle(s: State, r: nat): Option<nat>
    requires R.Enabled(s.rpc, R.RemoveTask(r))
  {
    s.rpc.finishing[r].stage.task
  }

  ghost function Step(s: State, a: Action): State
    requires Enabled(s, a)
  {
    match a
    case Protocol(b) => s.(rpc := R.Step(s.rpc, b))
    case Stamp(r, duration) =>
      s.(sched := S.Step(s.sched, S.Stamp(duration, true)), stamped := s.stamped[r := s.sched.nextId])
    case Emplace(r) =>
      s.(rpc := R.Step(s.rpc, R.AddTask(r)), sched := S.Step(s.sched, S.Emplace(s.stamped[r])),
         ids := s.ids[s.rpc.nextTask := s.stamped[r]])
    case Remove(r) =>
      var task := Handle(s, r);
      s.(rpc := R.Step(s.rpc, R.RemoveTask(r)),
         sched := if task.Some? && task.value in s.ids then S.Step(s.sched, S.Remove(s.ids[task.value])) else s.sched)
    case Collect(order) =>
      var sched := S.Step(s.sched, S.Collect(order));
      var due := Gathered(s.ids, sched.thread.pass.todo);
      s.(sched := sched, rpc := s.rpc.(collected := s.rpc.collected + due, deleted := s.rpc.deleted + due))
    case Fire(t) =>
      var sched := S.Step(s.sched, S.RunCallback);
      if t !in s.rpc.owner then s.(sched := sched)
      else
        s.(sched := sched, rpc := Claimed(s.rpc, t),
           timedOut := if s.rpc.owner[t] in s.rpc.calls then s.timedOut[s.rpc.owner[t] := s.sched.clock] else s.timedOut)
    case FireOther => s.(sched := S.Step(s.sched, S.RunCallback))
    case EndPass =>
      s.(sched := S.Step(s.sched, S.EndPass), rpc := s.rpc.(tasks := s.rpc.tasks - s.rpc.deleted, deleted := {}))
    case Elsewhere(b) => s.(sched := S.Step(s.sched, b))
  }

  ghost predicate Runs(s: State, actions: seq<Action>)
    decreases |actions|
  {
    actions == [] || (Enabled(s, actions[0]) && Runs(Step(s, actions[0]), actions[1..]))
  }

  ghost function Exec(s: State, actions: seq<Action>): State
    requires Runs(s, actions)
    decreases |actions|
  {
    if actions == [] then s else Exec(Step(s, actions[0]), actions[1..])
  }

  // ------------------------------------------------------------------- coupling

  ghost predicate IdsOk(s: State) {
    && (forall t | t in s.rpc.owner :: t in s.ids)
    && (forall t | t in s.ids :: t in s.rpc.owner && s.rpc.owner[t] in s.stamped && s.stamped[s.rpc.owner[t]] == s.ids[t])
    && (forall t, u | t in s.ids && u in s.ids && t != u :: s.ids[t] != s.ids[u])
    && (forall r | r in s.stamped :: s.stamped[r] in s.sched.requested && s.sched.requested[s.stamped[r]].once)
    && (forall r, q | r in s.stamped && q in s.stamped && r != q :: s.stamped[r] != s.stamped[q])
    && (forall t | t in s.ids :: s.ids[t] !in s.sched.adding)
  }

  /** Each timeout is scheduled, collected and marked for erasure in both machines
      alike. */
  ghost predicate TasksAgree(s: State) {
    forall t | t in s.ids ::
      && (t in s.rpc.tasks <==> s.ids[t] in s.sched.tasks)
      && (t in s.rpc.collected <==> SR.InPass(s.sched, s.ids[t]))
      && (t in s.rpc.deleted <==> Marked(s.sched, s.ids[t]))
  }

  /** A call's timeout came no earlier than its clamped duration after its stamp. */
  predicate OnTime(s: State, r: nat) {
    && r in s.timedOut && r in s.stamped && s.stamped[r] in s.sched.requested
    && var q := s.sched.requested[s.stamped[r]];
       q.at + S.Clamp(q.interval) <= s.timedOut[r] <= s.sched.clock
  }

  ghost predicate TimeoutsOk(s: State) {
    && (forall r | r in s.rpc.finishing && s.rpc.finishing[r].kind == R.Timeout :: OnTime(s, r))
    && (forall c | c in s.rpc.completed && c.kind == R.Timeout :: OnTime(s, c.request))
    && (forall r | r in s.timedOut :: OnTime(s, r))
  }

  ghost predicate Inv(s: State) {
    && R.Inv(s.rpc) && SR.Inv(s.sched) && SR.ScannedWatched(s.sched)
    && IdsOk(s) && TasksAgree(s) && TimeoutsOk(s)
  }

  // ----------------------------------------------------- the protocol's own runs

  lemma RpcOnce(s: R.State, a: R.Action)
    requires R.Enabled(s, a)
    ensures R.Runs(s, [a]) && R.Exec(s, [a]) == R.Step(s, a)
  {
    RR.ExecNothing(R.Step(s, a));
    assert [a] + [] == [a];
    hide R.Step, R.Enabled;
    RR.ExecAppend(s, a, []);
  }

  function Collecting(s: R.State, due: set<nat>): R.State {
    s.(collected := s.collected + due, deleted := s.deleted + due)
  }

  /** A pass collects timeouts one by one, in any order. */
  lemma {:induction false} CollectRuns(s: R.State, due: set<nat>) returns (path: seq<R.Action>)
    requires forall t | t in due :: t in s.tasks && t !in s.collected && t !in s.deleted
    ensures R.Runs(s, path) && R.Exec(s, path) == Collecting(s, due)
    decreases |due|
  {
    if due == {} {
      path := [];
      assert Collecting(s, due) == s;
    } else {
      var t :| t in due;
      CollectOne(s, due, t);
      hide R.Step, Collecting;
      var rest := CollectRuns(R.Step(s, R.Collect(t)), due - {t});
      path := [R.Collect(t)] + rest;
      RR.ExecAppend(s, R.Collect(t), rest);
    }
  }

  lemma CollectOne(s: R.State, due: set<nat>, t: nat)
    requires t in due && forall u | u in due :: u in s.tasks && u !in s.collected && u !in s.deleted
    ensures R.Enabled(s, R.Collect(t))
    ensures var v := R.Step(s, R.Collect(t));
      && Collecting(v, due - {t}) == Collecting(s, due)
      && forall u | u in due - {t} :: u in v.tasks && u !in v.collected && u !in v.deleted
  {
    assert s.collected + {t} + (due - {t}) == s.collected + due;
    assert s.deleted + {t} + (due - {t}) == s.deleted + due;
  }

  function Erasing(s: R.State, gone: set<nat>): R.State {
    s.(tasks := s.tasks - gone, deleted := s.deleted - gone)
  }

  lemma {:induction false} EraseRuns(s: R.State, gone: set<nat>) returns (path: seq<R.Action>)
    requires forall t | t in gone :: t in s.deleted && t !in s.collected
    ensures R.Runs(s, path) && R.Exec(s, path) == Erasing(s, gone)
    decreases |gone|
  {
    if gone == {} {
      path := [];
      assert Erasing(s, gone) == s;
    } else {
      var t :| t in gone;
      var u := R.Step(s, R.EraseTask(t));
      var rest := EraseRuns(u, gone - {t});
      path := [R.EraseTask(t)] + rest;
      assert Erasing(u, gone - {t}) == Erasing(s, gone) by {
        assert s.tasks - {t} - (gone - {t}) == s.tasks - gone;
        assert s.deleted - {t} - (gone - {t}) == s.deleted - gone;
      }
      hide R.Step, Erasing;
      RR.ExecAppend(s, R.EraseTask(t), rest);
    }
  }

  /** What a pass collects and which timeouts it marks. */
  lemma CollectCoupled(s: State, order: seq<nat>)
    requires Inv(s) && Enabled(s, Collect(order))
    ensures var t := Step(s, Collect(order));
      var due := Gathered(s.ids, t.sched.thread.pass.todo);
      && t.rpc == Collecting(s.rpc, due)
      && t.sched == s.sched.(tasks := t.sched.tasks, thread := t.sched.thread) && t.sched.thread.Running?
      && t.sched.tasks.Keys == s.sched.tasks.Keys
      && (forall u | u in due :: u in s.rpc.tasks && u !in s.rpc.collected && u !in s.rpc.deleted)
      && (forall u | u in s.ids :: u in due <==> SR.InPass(t.sched, s.ids[u]))
      && (forall u | u in s.ids :: u in due <==> Marked(t.sched, s.ids[u]))
      && (forall u | u in s.ids :: u !in s.rpc.collected && u !in s.rpc.deleted)
  {
    SR.CollectFacts(s.sched, order);
    TimeoutsAreOnce(s);
    CollectShape(s, order);
    var t := Step(s, Collect(order));
    hide Step, S.Step, R.Inv, TimeoutsOk, SR.Inv, SR.ScannedWatched, IdsOk, Collecting;
    assert forall u | u in s.ids :: !SR.InPass(s.sched, s.ids[u]) && !Marked(s.sched, s.ids[u]);
    assert forall u | u in s.ids :: SR.InPass(t.sched, s.ids[u]) <==> s.ids[u] in t.sched.thread.pass.todo;
    assert forall u | u in s.ids :: Marked(t.sched, s.ids[u]) <==> s.ids[u] in t.sched.thread.pass.oneShots;
    hide SR.InPass, Marked;
  }

  lemma CollectShape(s: State, order: seq<nat>)
    requires Enabled(s, Collect(order))
    ensures var t := Step(s, Collect(order));
      && t.sched == S.Step(s.sched, S.Collect(order)) && t.sched.thread.Running?
      && t.rpc == Collecting(s.rpc, Gathered(s.ids, t.sched.thread.pass.todo))
  {
    hide Gathered, S.Scan;
  }

  lemma TimeoutsAreOnce(s: State)
    requires Inv(s)
    ensures forall u | u in s.ids && s.ids[u] in s.sched.tasks :: s.sched.tasks[s.ids[u]].once
  {
    forall u | u in s.ids && s.ids[u] in s.sched.tasks ensures s.sched.tasks[s.ids[u]].once { TimeoutIsOnce(s, u); }
  }

  lemma TimeoutIsOnce(s: State, t: nat)
    requires SR.Inv(s.sched) && IdsOk(s) && t in s.ids && s.ids[t] in s.sched.tasks
    ensures s.sched.tasks[s.ids[t]].once
  {
    var id := s.ids[t];
    assert id in s.sched.requested;
    assert SR.DueOk(s.sched, id);
    hide SR.FiringsOk, SR.OnceOk;
  }

  /** For the protocol each step of the composition is a run of its own steps. */
  lemma RpcProjects(s: State, a: Action) returns (path: seq<R.Action>)
    requires Inv(s) && Enabled(s, a)
    ensures R.Runs(s.rpc, path) && R.Exec(s.rpc, path) == Step(s, a).rpc
  {
    hide R.Step, S.Step, R.Inv, SR.Inv, SR.ScannedWatched, TimeoutsOk, R.Enabled, S.Enabled;
    match a {
      case Protocol(b) =>
        path := [b];
        RpcOnce(s.rpc, b);
      case Emplace(r) =>
        path := [R.AddTask(r)];
        RpcOnce(s.rpc, R.AddTask(r));
      case Remove(r) =>
        path := [R.RemoveTask(r)];
        RpcOnce(s.rpc, R.RemoveTask(r));
      case Collect(order) =>
        CollectCoupled(s, order);
        path := CollectRuns(s.rpc, Gathered(s.ids, Step(s, a).sched.thread.pass.todo));
      case Fire(t) =>
        path := [R.RunTimeout(t)];
        FireIsTimeout(s, t);
        RpcOnce(s.rpc, R.RunTimeout(t));
      case EndPass =>
        path := EndErases(s);
      case _ =>
        path := [];
        RR.ExecNothing(s.rpc);
    }
  }

  lemma FireIsTimeout(s: State, t: nat)
    requires Inv(s) && Enabled(s, Fire(t))
    ensures R.Enabled(s.rpc, R.RunTimeout(t)) && R.Step(s.rpc, R.RunTimeout(t)) == Claimed(s.rpc, t) == Step(s, Fire(t)).rpc
  {
    HeadIsCollected(s, t);
    FireClaims(s, t);
    hide *;
    RpcTimesOut(s.rpc, t);
  }

  lemma FireClaims(s: State, t: nat)
    requires Enabled(s, Fire(t)) && t in s.rpc.owner
    ensures Step(s, Fire(t)).rpc == Claimed(s.rpc, t)
  {
    hide Claimed, S.Step;
  }

  lemma HeadIsCollected(s: State, t: nat)
    requires Inv(s) && Enabled(s, Fire(t))
    ensures t in s.rpc.owner && t in s.rpc.collected
  {
    assert SR.InPass(s.sched, s.ids[t]);
    hide R.Inv, SR.Inv, SR.ScannedWatched, TimeoutsOk, SR.InPass, Marked, S.Enabled;
  }

  lemma RpcTimesOut(s: R.State, t: nat)
    requires t in s.collected && t in s.owner
    ensures R.Enabled(s, R.RunTimeout(t)) && R.Step(s, R.RunTimeout(t)) == Claimed(s, t)
  {
    hide R.Claim;
  }

  lemma EndErases(s: State) returns (path: seq<R.Action>)
    requires Inv(s) && Enabled(s, EndPass)
    ensures R.Runs(s.rpc, path) && R.Exec(s.rpc, path) == Step(s, EndPass).rpc
  {
    KnownTasks(s.rpc);
    SchedEnds(s.sched);
    hide R.Inv, SR.Inv, SR.ScannedWatched, TimeoutsOk, S.Step, SR.InPass, Marked;
    assert forall t | t in s.rpc.deleted :: t !in s.rpc.collected;
    path := EraseRuns(s.rpc, s.rpc.deleted);
    assert s.rpc.deleted - s.rpc.deleted == {};
  }

  lemma KnownTasks(s: R.State)
    requires R.Inv(s)
    ensures forall t | t in s.tasks || t in s.collected || t in s.deleted :: t in s.owner
    ensures s.nextTask !in s.owner
  {
    hide R.PhasesOk, R.SlotsOk, R.TimeoutsOk, R.RepliesOk;
  }

  /** For the scheduler it is one of its steps or none. */
  ghost predicate SchedStep(s: S.State, t: S.State) {
    t == s || exists b :: S.Enabled(s, b) && S.Step(s, b) == t
  }

  lemma SchedProjects(s: State, a: Action)
    requires Enabled(s, a)
    ensures SchedStep(s.sched, Step(s, a).sched)
  {
    hide S.Step, R.Step, R.Enabled;
    match a
    case Protocol(_) =>
    case Stamp(r, duration) => assert S.Enabled(s.sched, S.Stamp(duration, true));
    case Emplace(r) => assert S.Enabled(s.sched, S.Emplace(s.stamped[r]));
    case Remove(r) =>
      var task := Handle(s, r);
      if task.Some? && task.value in s.ids { assert S.Enabled(s.sched, S.Remove(s.ids[task.value])); }
    case Collect(order) => assert S.Enabled(s.sched, S.Collect(order));
    case Fire(_) => assert S.Enabled(s.sched, S.RunCallback);
    case FireOther => assert S.Enabled(s.sched, S.RunCallback);
    case EndPass => assert S.Enabled(s.sched, S.EndPass);
    case Elsewhere(b) => assert S.Enabled(s.sched, b);
  }

  lemma SchedKeeps(s: State, a: Action)
    requires Inv(s) && Enabled(s, a)
    ensures SR.Inv(Step(s, a).sched) && SR.ScannedWatched(Step(s, a).sched)
  {
    SchedProjects(s, a);
    var t := Step(s, a).sched;
    hide Step, R.Inv, SR.Inv, SR.ScannedWatched, IdsOk, TasksAgree, TimeoutsOk, S.Step, S.Enabled, Enabled;
    if t != s.sched {
      var b :| S.Enabled(s.sched, b) && S.Step(s.sched, b) == t;
      SR.StepKeeps(s.sched, b);
      SR.ScannedStep(s.sched, b);
    }
  }

  lemma RpcKeeps(s: State, a: Action)
    requires Inv(s) && Enabled(s, a)
    ensures R.Inv(Step(s, a).rpc)
  {
    var path := RpcProjects(s, a);
    hide Step, R.Inv, SR.Inv, SR.ScannedWatched, IdsOk, TasksAgree, TimeoutsOk, R.Runs, R.Exec, Enabled;
    RR.RunKeeps(s.rpc, path);
  }

  // -------------------------------------------------------- what each step keeps

  /** What was stamped and timed out stays so, and time does not go back. */
  ghost predicate Carries(s: State, t: State) {
    && s.sched.clock <= t.sched.clock
    && (forall id | id in s.sched.requested :: id in t.sched.requested && t.sched.requested[id] == s.sched.requested[id])
    && (forall r | r in s.stamped :: r in t.stamped && t.stamped[r] == s.stamped[r])
    && (forall r | r in s.timedOut :: r in t.timedOut && t.timedOut[r] == s.timedOut[r])
  }

  lemma OnTimeCarried(s: State, t: State, r: nat)
    requires Carries(s, t) && OnTime(s, r)
    ensures OnTime(t, r)
  {
  }

  /** No call has been claimed by its timeout in between. */
  ghost predicate NoTimeout(u: R.State, v: R.State) {
    && (forall r | r in v.finishing && v.finishing[r].kind == R.Timeout ::
          r in u.finishing && u.finishing[r].kind == R.Timeout)
    && (forall c | c in v.completed && c.kind == R.Timeout ::
          c in u.completed || (c.request in u.finishing && u.finishing[c.request].kind == R.Timeout))
  }

  lemma TimeoutsCarried(s: State, t: State)
    requires TimeoutsOk(s) && Carries(s, t) && NoTimeout(s.rpc, t.rpc) && t.timedOut == s.timedOut
    ensures TimeoutsOk(t)
  {
    forall r | OnTime(s, r) ensures OnTime(t, r) { OnTimeCarried(s, t, r); }
    hide OnTime, Carries;
  }

  /** The scheduler forgets nothing that was requested. */
  lemma SchedCarries(s: S.State, b: S.Action)
    requires SR.Inv(s) && S.Enabled(s, b)
    ensures var t := S.Step(s, b);
      && s.clock <= t.clock
      && forall id | id in s.requested :: id in t.requested && t.requested[id] == s.requested[id]
  {
    hide SR.FiringsOk, SR.DueOk, SR.OnceOk, S.Scan, S.Erased;
  }

  lemma StepRecords(s: State, a: Action)
    requires Enabled(s, a) && !a.Fire? && !a.Stamp?
    ensures Step(s, a).stamped == s.stamped && Step(s, a).timedOut == s.timedOut
  {
    hide R.Step, S.Step, R.Enabled, S.Enabled, Gathered, Claimed;
  }

  lemma StepCarries(s: State, a: Action)
    requires Inv(s) && Enabled(s, a) && !a.Fire? && !a.Stamp?
    ensures Carries(s, Step(s, a))
  {
    SchedProjects(s, a);
    var t := Step(s, a);
    StepRecords(s, a);
    hide Step, R.Inv, SR.Inv, SR.ScannedWatched, IdsOk, TasksAgree, TimeoutsOk, S.Step, S.Enabled, Enabled;
    if t.sched != s.sched {
      var b :| S.Enabled(s.sched, b) && S.Step(s.sched, b) == t.sched;
      SchedCarries(s.sched, b);
    }
  }

  lemma SameTasks(s: State, t: State)
    requires IdsOk(s) && TasksAgree(s)
    requires t.ids == s.ids && t.stamped == s.stamped && t.rpc.owner == s.rpc.owner
    requires t.rpc.tasks == s.rpc.tasks && t.rpc.collected == s.rpc.collected && t.rpc.deleted == s.rpc.deleted
    requires forall id | id in s.sched.requested :: id in t.sched.requested && t.sched.requested[id] == s.sched.requested[id]
    requires forall u | u in s.ids :: s.ids[u] !in t.sched.adding
    requires forall u | u in s.ids ::
               && (s.ids[u] in t.sched.tasks <==> s.ids[u] in s.sched.tasks)
               && (SR.InPass(t.sched, s.ids[u]) <==> SR.InPass(s.sched, s.ids[u]))
               && (Marked(t.sched, s.ids[u]) <==> Marked(s.sched, s.ids[u]))
    ensures IdsOk(t) && TasksAgree(t)
  {
    hide SR.InPass, Marked;
  }

  /** The slots of the message handler are for successes and errors. */
  lemma SlotKind(s: R.State, key: R.SlotKey)
    requires R.Inv(s) && key in s.slots
    ensures s.slots[key].kind != R.Timeout
  {
    hide R.PhasesOk, R.TasksOk, R.TimeoutsOk, R.RepliesOk;
    var r := s.slots[key].request;
    assert R.OwnsSuccess(s, r, key) ==> R.HoldsSuccess(s, r, key);
    assert R.OwnsError(s, r, key) ==> R.HoldsError(s, r, key);
  }

  lemma ClaimIsNoTimeout(s: R.State, t: R.State, r: nat, kind: R.Kind, reply: Option<R.Reply>)
    requires kind != R.Timeout && t.finishing == s.finishing && t.completed == s.completed
    ensures NoTimeout(s, R.Claim(t, r, kind, reply))
  {
  }

  lemma UntouchedIsNoTimeout(s: R.State, t: R.State)
    requires t.finishing == s.finishing && t.completed == s.completed
    ensures NoTimeout(s, t)
  {
  }

  /** A reply claims a call with a success or an error. */
  lemma SlotIsNoTimeout(s: R.State, id: nat)
    requires R.Inv(s) && R.Enabled(s, R.RunSlot(id))
    ensures NoTimeout(s, R.Step(s, R.RunSlot(id)))
  {
    hide R.Inv, NoTimeout, R.Claim;
    var e := s.emission.value;
    var key := R.SlotKey(e.reply.messageType, id);
    var t := s.(emission := Some(e.(todo := e.todo - {id})));
    UntouchedIsNoTimeout(s, t);
    if key in s.slots {
      SlotKind(s, key);
      ClaimIsNoTimeout(s, t, s.slots[key].request, s.slots[key].kind, Some(e.reply));
    }
  }

  lemma FinishIsNoTimeout(s: R.State, b: R.Action)
    requires R.Enabled(s, b) && (b.CancelEntry? || b.RemoveTask? || b.RunCallback?)
    ensures NoTimeout(s, R.Step(s, b))
  {
  }

  lemma OthersAreNoTimeout(s: R.State, b: R.Action)
    requires R.Enabled(s, b) && Separate(b) && !b.RunSlot? && !b.CancelEntry? && !b.RunCallback?
    ensures NoTimeout(s, R.Step(s, b))
  {
    hide NoTimeout;
    UntouchedIsNoTimeout(s, R.Step(s, b));
  }

  lemma SeparateIsSeparate(s: R.State, b: R.Action)
    requires Separate(b) && R.Enabled(s, b)
    ensures var t := R.Step(s, b);
      t.owner == s.owner && t.tasks == s.tasks && t.collected == s.collected && t.deleted == s.deleted
  {
  }

  /** Steps of the protocol away from the scheduler. */
  lemma SeparateStep(s: R.State, b: R.Action)
    requires R.Inv(s) && Separate(b) && R.Enabled(s, b)
    ensures var t := R.Step(s, b);
      && t.owner == s.owner && t.tasks == s.tasks && t.collected == s.collected && t.deleted == s.deleted
      && NoTimeout(s, t)
  {
    hide R.Inv, R.Step, NoTimeout;
    SeparateIsSeparate(s, b);
    if b.RunSlot? { SlotIsNoTimeout(s, b.id); }
    else if b.CancelEntry? || b.RunCallback? { FinishIsNoTimeout(s, b); }
    else { OthersAreNoTimeout(s, b); }
  }

  lemma ProtocolKeeps(s: State, b: R.Action)
    requires Inv(s) && Enabled(s, Protocol(b))
    ensures var t := Step(s, Protocol(b)); IdsOk(t) && TasksAgree(t) && TimeoutsOk(t)
  {
    SeparateStep(s.rpc, b);
    var t := Step(s, Protocol(b));
    hide R.Step, R.Inv, SR.Inv, SR.ScannedWatched, R.Enabled, SR.InPass, Marked;
    assert t.sched == s.sched;
    assert forall u | u in s.ids :: s.ids[u] !in t.sched.adding;
    StepCarries(s, Protocol(b));
    hide NoTimeout, TimeoutsOk, Carries, IdsOk, TasksAgree;
    TimeoutsCarried(s, t);
    SameTasks(s, t);
  }

  lemma SchedStamps(s: S.State, interval: int, once: bool)
    ensures var t := S.Step(s, S.Stamp(interval, once));
      && t.tasks == s.tasks && t.thread == s.thread && t.adding.Keys == s.adding.Keys + {s.nextId}
      && s.nextId in t.requested && t.requested[s.nextId].once == once
  {
  }

  lemma StampedIds(s: State, t: State, r: nat, id: nat)
    requires IdsOk(s)
    requires r !in s.stamped && id !in s.sched.requested
    requires t.rpc == s.rpc && t.ids == s.ids && t.stamped == s.stamped[r := id]
    requires t.sched.adding.Keys == s.sched.adding.Keys + {id}
    requires id in t.sched.requested && t.sched.requested[id].once
    requires forall x | x in s.sched.requested :: x in t.sched.requested && t.sched.requested[x] == s.sched.requested[x]
    ensures IdsOk(t)
  {
    assert forall u | u in s.ids :: s.ids[u] in s.sched.requested;
  }

  lemma StampedTasks(s: State, t: State)
    requires TasksAgree(s)
    requires t.rpc == s.rpc && t.ids == s.ids && t.sched.tasks == s.sched.tasks && t.sched.thread == s.sched.thread
    ensures TasksAgree(t)
  {
    forall x ensures SR.InPass(t.sched, x) <==> SR.InPass(s.sched, x) {}
    hide SR.InPass;
  }

  lemma NextIsNew(s: S.State)
    requires SR.Inv(s)
    ensures s.nextId !in s.requested
  {
    hide SR.FiringsOk, SR.DueOk, SR.OnceOk;
  }

  lemma StampKeeps(s: State, r: nat, duration: int)
    requires Inv(s) && Enabled(s, Stamp(r, duration))
    ensures var t := Step(s, Stamp(r, duration)); IdsOk(t) && TasksAgree(t) && TimeoutsOk(t)
  {
    var t := Step(s, Stamp(r, duration));
    SchedCarries(s.sched, S.Stamp(duration, true));
    NextIsNew(s.sched);
    SchedStamps(s.sched, duration, true);
    hide R.Inv, SR.Inv, SR.ScannedWatched, R.Enabled, TimeoutsOk, IdsOk, TasksAgree, NoTimeout, S.Step;
    UntouchedIsNoTimeout(s.rpc, t.rpc);
    assert Carries(s, t);
    hide Carries;
    TimeoutsCarried(s, t);
    StampedIds(s, t, r, s.sched.nextId);
    StampedTasks(s, t);
  }

  /** A task about to enter the table has not been collected. */
  lemma AddingIsNew(s: S.State, id: nat)
    requires SR.Inv(s) && SR.ScannedWatched(s) && id in s.adding
    ensures !SR.InPass(s, id) && !Marked(s, id)
  {
    assert SR.DueOk(s, id);
    hide SR.FiringsOk, SR.OnceOk;
  }

  // The steps of the two machines, by what they do to timeouts.

  predicate SamePass(s: S.State, t: S.State, id: nat) {
    (SR.InPass(t, id) <==> SR.InPass(s, id)) && (Marked(t, id) <==> Marked(s, id))
  }

  lemma SchedEmplaces(s: S.State, id: nat)
    requires S.Enabled(s, S.Emplace(id))
    ensures var t := S.Step(s, S.Emplace(id));
      && t.requested == s.requested && t.adding == s.adding - {id} && t.tasks.Keys == s.tasks.Keys + {id}
      && forall x :: SamePass(s, t, x)
  {
  }

  lemma SchedRemoves(s: S.State, id: nat)
    ensures var t := S.Step(s, S.Remove(id));
      && t.requested == s.requested && t.adding == s.adding && t.tasks.Keys == s.tasks.Keys - {id}
      && forall x :: SamePass(s, t, x)
  {
  }

  lemma SchedFires(s: S.State)
    requires S.Enabled(s, S.RunCallback) && s.thread.pass.todo[0] !in s.thread.pass.todo[1..]
    ensures var t := S.Step(s, S.RunCallback);
      && t.requested == s.requested && t.adding == s.adding && t.tasks == s.tasks && t.clock == s.clock
      && (forall x :: SR.InPass(t, x) <==> SR.InPass(s, x) && x != s.thread.pass.todo[0])
      && (forall x :: Marked(t, x) <==> Marked(s, x))
  {
    var todo := s.thread.pass.todo;
    assert todo == [todo[0]] + todo[1..];
  }

  lemma RpcAdds(s: R.State, r: nat)
    requires R.Enabled(s, R.AddTask(r))
    ensures var t := R.Step(s, R.AddTask(r));
      && t.owner == s.owner[s.nextTask := r] && t.tasks == s.tasks + {s.nextTask}
      && t.collected == s.collected && t.deleted == s.deleted && t.finishing == s.finishing && t.completed == s.completed
  {
  }

  lemma RpcRemoves(s: R.State, r: nat)
    requires R.Enabled(s, R.RemoveTask(r))
    ensures var t := R.Step(s, R.RemoveTask(r));
      var task := s.finishing[r].stage.task;
      && t.owner == s.owner && t.tasks == (if task.Some? then s.tasks - {task.value} else s.tasks)
      && t.collected == s.collected && t.deleted == s.deleted
  {
  }

  lemma EmplacedIds(s: State, t: State, r: nat, task: nat, id: nat)
    requires IdsOk(s)
    requires r in s.stamped && s.stamped[r] == id && id in s.sched.adding && task !in s.rpc.owner
    requires t.stamped == s.stamped && t.ids == s.ids[task := id] && t.rpc.owner == s.rpc.owner[task := r]
    requires t.sched.requested == s.sched.requested && t.sched.adding == s.sched.adding - {id}
    ensures IdsOk(t) && task !in s.ids && forall u | u in s.ids :: s.ids[u] != id
  {
    assert task !in s.ids;
    assert forall u | u in s.ids :: s.ids[u] != id;
  }

  lemma EmplacedTasks(s: State, t: State, task: nat, id: nat)
    requires TasksAgree(s) && task !in s.ids && (forall u | u in s.ids :: s.ids[u] != id)
    requires t.ids == s.ids[task := id]
    requires task !in s.rpc.collected && task !in s.rpc.deleted && !SR.InPass(s.sched, id) && !Marked(s.sched, id)
    requires t.rpc.tasks == s.rpc.tasks + {task} && t.rpc.collected == s.rpc.collected && t.rpc.deleted == s.rpc.deleted
    requires t.sched.tasks.Keys == s.sched.tasks.Keys + {id} && forall x :: SamePass(s.sched, t.sched, x)
    ensures TasksAgree(t)
  {
    hide SR.InPass, Marked;
    forall u | u in t.ids ensures
        && (u in t.rpc.tasks <==> t.ids[u] in t.sched.tasks)
        && (u in t.rpc.collected <==> SR.InPass(t.sched, t.ids[u]))
        && (u in t.rpc.deleted <==> Marked(t.sched, t.ids[u]))
    {
      assert SamePass(s.sched, t.sched, t.ids[u]);
      assert u != task ==> u in s.ids && t.ids[u] == s.ids[u] != id;
    }
  }

  lemma EmplaceKeeps(s: State, r: nat)
    requires Inv(s) && Enabled(s, Emplace(r))
    ensures var t := Step(s, Emplace(r)); IdsOk(t) && TasksAgree(t) && TimeoutsOk(t)
  {
    var t := Step(s, Emplace(r));
    var id := s.stamped[r];
    StepCarries(s, Emplace(r));
    KnownTasks(s.rpc);
    AddingIsNew(s.sched, id);
    RpcAdds(s.rpc, r);
    SchedEmplaces(s.sched, id);
    hide R.Inv, SR.Inv, SR.ScannedWatched, TimeoutsOk, NoTimeout, Carries, IdsOk, TasksAgree, R.Step, S.Step, SamePass, SR.InPass, Marked;
    UntouchedIsNoTimeout(s.rpc, t.rpc);
    TimeoutsCarried(s, t);
    hide R.Enabled, S.Enabled;
    EmplacedIds(s, t, r, s.rpc.nextTask, id);
    EmplacedTasks(s, t, s.rpc.nextTask, id);
  }

  lemma RemovedTasks(s: State, t: State, task: nat)
    requires IdsOk(s) && TasksAgree(s) && task in s.ids
    requires t.ids == s.ids && t.stamped == s.stamped && t.rpc.owner == s.rpc.owner
    requires t.rpc.tasks == s.rpc.tasks - {task} && t.rpc.collected == s.rpc.collected && t.rpc.deleted == s.rpc.deleted
    requires t.sched.requested == s.sched.requested && t.sched.adding == s.sched.adding
    requires t.sched.tasks.Keys == s.sched.tasks.Keys - {s.ids[task]} && forall x :: SamePass(s.sched, t.sched, x)
    ensures IdsOk(t) && TasksAgree(t)
  {
    hide SR.InPass, Marked;
    forall u | u in t.ids ensures
        && (u in t.rpc.tasks <==> t.ids[u] in t.sched.tasks)
        && (u in t.rpc.collected <==> SR.InPass(t.sched, t.ids[u]))
        && (u in t.rpc.deleted <==> Marked(t.sched, t.ids[u]))
    {
      assert SamePass(s.sched, t.sched, t.ids[u]);
      assert u != task ==> s.ids[u] != s.ids[task];
    }
  }

  lemma RemoveKeeps(s: State, r: nat)
    requires Inv(s) && Enabled(s, Remove(r))
    ensures var t := Step(s, Remove(r)); IdsOk(t) && TasksAgree(t) && TimeoutsOk(t)
  {
    var t := Step(s, Remove(r));
    var task := Handle(s, r);
    StepCarries(s, Remove(r));
    HandleKnown(s, r);
    FinishIsNoTimeout(s.rpc, R.RemoveTask(r));
    RpcRemoves(s.rpc, r);
    if task.Some? { SchedRemoves(s.sched, s.ids[task.value]); }
    hide R.Inv, SR.Inv, SR.ScannedWatched, TimeoutsOk, NoTimeout, Carries, TasksAgree, R.Step, S.Step, SamePass, SR.InPass, Marked;
    TimeoutsCarried(s, t);
    assert forall u | u in s.ids :: s.ids[u] !in s.sched.adding;
    hide IdsOk;
    if task.Some? { RemovedTasks(s, t, task.value); } else { SameTasks(s, t); }
  }

  lemma HandleKnown(s: State, r: nat)
    requires Inv(s) && Enabled(s, Remove(r))
    ensures Handle(s, r).Some? ==> Handle(s, r).value in s.ids
  {
    hide R.PhasesOk, R.SlotsOk, R.TimeoutsOk, R.RepliesOk, SR.Inv, SR.ScannedWatched, TasksAgree, TimeoutsOk;
  }

  lemma CollectKeeps(s: State, order: seq<nat>)
    requires Inv(s) && Enabled(s, Collect(order))
    ensures var t := Step(s, Collect(order)); IdsOk(t) && TasksAgree(t) && TimeoutsOk(t)
  {
    var t := Step(s, Collect(order));
    StepCarries(s, Collect(order));
    CollectCoupled(s, order);
    CollectRecords(s, order);
    hide Step, Enabled, R.Inv, SR.Inv, SR.ScannedWatched, TimeoutsOk, NoTimeout, Carries, SR.InPass, Marked, IdsOk, TasksAgree, Gathered;
    UntouchedIsNoTimeout(s.rpc, t.rpc);
    TimeoutsCarried(s, t);
    CollectedTasks(s, t, Gathered(s.ids, t.sched.thread.pass.todo));
  }

  lemma CollectRecords(s: State, order: seq<nat>)
    requires Enabled(s, Collect(order))
    ensures var t := Step(s, Collect(order)); t.ids == s.ids && t.stamped == s.stamped && t.timedOut == s.timedOut
  {
  }

  lemma CollectedTasks(s: State, t: State, due: set<nat>)
    requires IdsOk(s) && TasksAgree(s)
    requires t.ids == s.ids && t.stamped == s.stamped && t.rpc == Collecting(s.rpc, due)
    requires t.sched == s.sched.(tasks := t.sched.tasks, thread := t.sched.thread) && t.sched.tasks.Keys == s.sched.tasks.Keys
    requires forall u | u in s.ids :: u in due <==> SR.InPass(t.sched, s.ids[u])
    requires forall u | u in s.ids :: u in due <==> Marked(t.sched, s.ids[u])
    requires forall u | u in s.ids :: u !in s.rpc.collected && u !in s.rpc.deleted
    ensures IdsOk(t) && TasksAgree(t)
  {
    hide SR.InPass, Marked;
  }

  /** A task whose callback is about to run is due: its interval has passed. */
  lemma CollectedIsDue(s: S.State, id: nat)
    requires SR.Inv(s) && SR.InPass(s, id)
    ensures id in s.requested && s.requested[id].at + S.Clamp(s.requested[id].interval) <= s.clock
  {
    assert SR.DueOk(s, id);
    MarkGrows(s.requested[id], SR.Collected(s, id));
    hide SR.FiringsOk, SR.OnceOk, SR.Mark;
  }

  lemma {:induction false} MarkGrows(q: S.Request, k: nat)
    requires k >= 1
    ensures SR.Mark(q, k) >= q.at + S.Clamp(q.interval)
  {
    if k > 1 {
      MarkGrows(q, k - 1);
      SR.MarkNext(q, k - 1);
    }
  }

  lemma FiredIds(s: State, v: State, t: nat)
    requires IdsOk(s) && TasksAgree(s) && t in s.ids
    requires v.ids == s.ids && v.stamped == s.stamped && v.rpc.owner == s.rpc.owner
    requires v.rpc.tasks == s.rpc.tasks && v.rpc.collected == s.rpc.collected - {t} && v.rpc.deleted == s.rpc.deleted
    requires v.sched.requested == s.sched.requested && v.sched.adding == s.sched.adding && v.sched.tasks == s.sched.tasks
    requires forall id :: SR.InPass(v.sched, id) <==> SR.InPass(s.sched, id) && id != s.ids[t]
    requires forall id :: Marked(v.sched, id) <==> Marked(s.sched, id)
    ensures IdsOk(v) && TasksAgree(v)
  {
    hide SR.InPass, Marked;
  }

  lemma ClaimedTasks(rpc: R.State, t: nat)
    requires t in rpc.owner
    ensures var v := Claimed(rpc, t);
      v.collected == rpc.collected - {t} && v.tasks == rpc.tasks && v.deleted == rpc.deleted && v.owner == rpc.owner
  {
  }

  lemma FireTasks(s: State, t: nat)
    requires Inv(s) && Enabled(s, Fire(t))
    ensures IdsOk(Step(s, Fire(t))) && TasksAgree(Step(s, Fire(t)))
  {
    var v := Step(s, Fire(t));
    NoRepeat(s.sched);
    assert t in s.rpc.owner;
    ClaimedTasks(s.rpc, t);
    SchedFires(s.sched);
    hide R.Inv, SR.Inv, SR.ScannedWatched, TimeoutsOk, Claimed, IdsOk, TasksAgree, S.Step, SR.InPass, Marked;
    FiredIds(s, v, t);
  }

  lemma NoRepeat(s: S.State)
    requires SR.Inv(s) && S.Enabled(s, S.RunCallback)
    ensures s.thread.pass.todo[0] !in s.thread.pass.todo[1..]
  {
    hide SR.FiringsOk, SR.DueOk, SR.OnceOk;
  }

  /** A timeout that finds its call pending claims it, in time. */
  lemma FireTimeouts(s: State, t: nat)
    requires Inv(s) && Enabled(s, Fire(t))
    ensures TimeoutsOk(Step(s, Fire(t)))
  {
    var v := Step(s, Fire(t));
    var r := s.rpc.owner[t];
    CollectedIsDue(s.sched, s.ids[t]);
    assert s.stamped[r] == s.ids[t];
    ClaimedTimeouts(s.rpc, t);
    hide R.Inv, SR.Inv, SR.ScannedWatched, Claimed, SR.InPass, IdsOk, TasksAgree;
    assert v.sched.requested == s.sched.requested && v.sched.clock == s.sched.clock && v.stamped == s.stamped;
    assert v.rpc == Claimed(s.rpc, t);
    assert v.timedOut == if r in s.rpc.calls then s.timedOut[r := s.sched.clock] else s.timedOut;
    hide Step;
    FiredTimeouts(s, v, t, r);
  }

  lemma ClaimedTimeouts(rpc: R.State, t: nat)
    requires t in rpc.owner
    ensures var v := Claimed(rpc, t);
      && v.completed == rpc.completed
      && (forall r | r in v.finishing && v.finishing[r].kind == R.Timeout ::
            (r in rpc.finishing && rpc.finishing[r].kind == R.Timeout) || (r == rpc.owner[t] && r in rpc.calls))
  {
  }

  lemma FiredTimeouts(s: State, v: State, t: nat, r: nat)
    requires TimeoutsOk(s)
    requires v.sched.requested == s.sched.requested && v.sched.clock == s.sched.clock && v.stamped == s.stamped
    requires v.timedOut == if r in s.rpc.calls then s.timedOut[r := s.sched.clock] else s.timedOut
    requires r in s.stamped && s.stamped[r] in s.sched.requested
    requires var q := s.sched.requested[s.stamped[r]]; q.at + S.Clamp(q.interval) <= s.sched.clock
    requires v.rpc.completed == s.rpc.completed
    requires forall x | x in v.rpc.finishing && v.rpc.finishing[x].kind == R.Timeout ::
               (x in s.rpc.finishing && s.rpc.finishing[x].kind == R.Timeout) || (x == r && r in s.rpc.calls)
    ensures TimeoutsOk(v)
  {
    forall q | OnTime(s, q) ensures OnTime(v, q) {
    }
    if r in s.rpc.calls { assert OnTime(v, r); }
    assert forall q | q in v.timedOut :: q in s.timedOut || (q == r && r in s.rpc.calls);
    hide OnTime;
  }

  lemma FireOtherKeeps(s: State)
    requires Inv(s) && Enabled(s, FireOther)
    ensures var t := Step(s, FireOther); IdsOk(t) && TasksAgree(t) && TimeoutsOk(t)
  {
    var t := Step(s, FireOther);
    StepCarries(s, FireOther);
    NoRepeat(s.sched);
    SchedFires(s.sched);
    assert forall u | u in s.ids :: s.ids[u] in s.ids.Values;
    hide R.Inv, SR.Inv, SR.ScannedWatched, TimeoutsOk, NoTimeout, Carries, S.Step, SR.InPass, Marked;
    UntouchedIsNoTimeout(s.rpc, t.rpc);
    TimeoutsCarried(s, t);
    assert forall u | u in s.ids :: s.ids[u] !in s.sched.adding;
    hide IdsOk, TasksAgree;
    SameTasks(s, t);
  }

  lemma SchedEnds(s: S.State)
    requires S.Enabled(s, S.EndPass)
    ensures var t := S.Step(s, S.EndPass);
      && t.requested == s.requested && t.adding == s.adding
      && (forall x :: !SR.InPass(s, x) && !SR.InPass(t, x) && !Marked(t, x))
      && (forall x :: x in t.tasks <==> x in s.tasks && !Marked(s, x))
  {
  }

  lemma EndedTasks(s: State, t: State)
    requires IdsOk(s) && TasksAgree(s)
    requires t.ids == s.ids && t.stamped == s.stamped && t.rpc.owner == s.rpc.owner && t.rpc.collected == s.rpc.collected
    requires t.rpc.tasks == s.rpc.tasks - s.rpc.deleted && t.rpc.deleted == {}
    requires t.sched.requested == s.sched.requested && t.sched.adding == s.sched.adding
    requires forall x :: !SR.InPass(s.sched, x) && !SR.InPass(t.sched, x) && !Marked(t.sched, x)
    requires forall x :: x in t.sched.tasks <==> x in s.sched.tasks && !Marked(s.sched, x)
    ensures IdsOk(t) && TasksAgree(t)
  {
    hide SR.InPass, Marked;
  }

  lemma EndPassKeeps(s: State)
    requires Inv(s) && Enabled(s, EndPass)
    ensures var t := Step(s, EndPass); IdsOk(t) && TasksAgree(t) && TimeoutsOk(t)
  {
    var t := Step(s, EndPass);
    StepCarries(s, EndPass);
    SchedEnds(s.sched);
    hide R.Inv, SR.Inv, SR.ScannedWatched, TimeoutsOk, NoTimeout, Carries, IdsOk, TasksAgree, S.Step, SR.InPass, Marked;
    UntouchedIsNoTimeout(s.rpc, t.rpc);
    TimeoutsCarried(s, t);
    EndedTasks(s, t);
  }

  /** Other tasks of the scheduler. */
  lemma SchedElsewhere(s: S.State, b: S.Action, id: nat)
    requires S.Enabled(s, b) && (b.Tick? || b.Stamp? || b.Notify? || b.Emplace? || b.Remove?)
    requires id < s.nextId && id !in s.adding && ((b.Emplace? || b.Remove?) ==> b.id != id)
    ensures var t := S.Step(s, b);
      id !in t.adding && (id in t.tasks <==> id in s.tasks) && SamePass(s, t, id)
  {
  }

  lemma ElsewhereKeeps(s: State, b: S.Action)
    requires Inv(s) && Enabled(s, Elsewhere(b))
    ensures var t := Step(s, Elsewhere(b)); IdsOk(t) && TasksAgree(t) && TimeoutsOk(t)
  {
    var t := Step(s, Elsewhere(b));
    StepCarries(s, Elsewhere(b));
    IdsBelow(s);
    OwnIds(s);
    hide R.Inv, SR.Inv, SR.ScannedWatched, TimeoutsOk, NoTimeout, Carries, TasksAgree, S.Step, S.Enabled;
    forall u | u in s.ids
      ensures s.ids[u] !in t.sched.adding
      ensures s.ids[u] in t.sched.tasks <==> s.ids[u] in s.sched.tasks
      ensures SamePass(s.sched, t.sched, s.ids[u])
    {
      SchedElsewhere(s.sched, b, s.ids[u]);
    }
    hide IdsOk;
    UntouchedIsNoTimeout(s.rpc, t.rpc);
    TimeoutsCarried(s, t);
    ElsewhereCarries(s, b);
    hide SR.InPass, Marked;
    SameTasks(s, t);
  }

  lemma ElsewhereCarries(s: State, b: S.Action)
    requires Inv(s) && Enabled(s, Elsewhere(b))
    ensures var t := Step(s, Elsewhere(b));
      forall id | id in s.sched.requested :: id in t.sched.requested && t.sched.requested[id] == s.sched.requested[id]
  {
    StepCarries(s, Elsewhere(b));
    hide Inv, Step, Enabled;
  }

  lemma OwnIds(s: State)
    requires IdsOk(s)
    ensures forall u | u in s.ids :: s.ids[u] in s.ids.Values && s.ids[u] in s.stamped.Values
  {
    forall u | u in s.ids ensures s.ids[u] in s.stamped.Values {
      assert s.stamped[s.rpc.owner[u]] == s.ids[u];
    }
  }

  lemma IdsBelow(s: State)
    requires SR.Inv(s.sched) && IdsOk(s)
    ensures forall u | u in s.ids :: s.ids[u] < s.sched.nextId
  {
    hide SR.FiringsOk, SR.DueOk, SR.OnceOk;
    assert forall u | u in s.ids :: s.ids[u] in s.sched.requested;
  }

  lemma StepKeeps(s: State, a: Action)
    requires Inv(s) && Enabled(s, a)
    ensures Inv(Step(s, a))
  {
    RpcKeeps(s, a);
    SchedKeeps(s, a);
    hide R.Inv, SR.Inv, SR.ScannedWatched, IdsOk, TasksAgree, TimeoutsOk, Step, Enabled;
    match a
    case Protocol(b) => ProtocolKeeps(s, b);
    case Stamp(r, duration) => StampKeeps(s, r, duration);
    case Emplace(r) => EmplaceKeeps(s, r);
    case Remove(r) => RemoveKeeps(s, r);
    case Collect(order) => CollectKeeps(s, order);
    case Fire(t) =>
      FireTasks(s, t);
      FireTimeouts(s, t);
    case FireOther => FireOtherKeeps(s);
    case EndPass => EndPassKeeps(s);
    case Elsewhere(b) => ElsewhereKeeps(s, b);
  }

  lemma {:induction false} RunKeeps(s: State, actions: seq<Action>)
    requires Inv(s) && Runs(s, actions)
    ensures Inv(Exec(s, actions))
    decreases |actions|
  {
    hide Inv, Step, Enabled;
    if actions != [] {
      StepKeeps(s, actions[0]);
      RunKeeps(Step(s, actions[0]), actions[1..]);
    }
  }

  // -------------------------------------------------------------------- theorems

  lemma StartOk()
    ensures Inv(START)
  {
    RR.StartOk();
  }

  lemma FireCarries(s: State, t: nat)
    requires Inv(s) && Enabled(s, Fire(t))
    ensures Stands(s, Step(s, Fire(t)))
  {
    SchedCarries(s.sched, S.RunCallback);
    hide Inv, S.Step, S.Enabled, Claimed;
  }

  lemma StampCarries(s: State, r: nat, duration: int)
    requires Inv(s) && Enabled(s, Stamp(r, duration))
    ensures Stands(s, Step(s, Stamp(r, duration)))
  {
    SchedCarries(s.sched, S.Stamp(duration, true));
    hide Inv, S.Step, S.Enabled, R.Enabled;
  }

  /** What was stamped stays so. */
  ghost predicate Stands(s: State, t: State) {
    && s.sched.clock <= t.sched.clock
    && (forall id | id in s.sched.requested :: id in t.sched.requested && t.sched.requested[id] == s.sched.requested[id])
    && (forall r | r in s.stamped :: r in t.stamped && t.stamped[r] == s.stamped[r])
  }

  lemma StepStands(s: State, a: Action)
    requires Inv(s) && Enabled(s, a)
    ensures Stands(s, Step(s, a))
  {
    hide Inv, Step, Enabled;
    if a.Fire? { FireCarries(s, a.t); }
    else if a.Stamp? { StampCarries(s, a.r, a.duration); }
    else { StepCarries(s, a); }
  }

  lemma {:induction false} RunStands(s: State, actions: seq<Action>)
    requires Inv(s) && Runs(s, actions)
    ensures Stands(s, Exec(s, actions))
    decreases |actions|
  {
    hide Inv, Step, Enabled;
    if actions != [] {
      StepStands(s, actions[0]);
      StepKeeps(s, actions[0]);
      RunStands(Step(s, actions[0]), actions[1..]);
    }
  }

  lemma StampRecords(s: State, r: nat, duration: int)
    requires Inv(s) && Enabled(s, Stamp(r, duration))
    ensures var t := Step(s, Stamp(r, duration));
      && r in t.stamped && t.stamped[r] in t.sched.requested
      && t.sched.requested[t.stamped[r]].at == s.sched.clock && t.sched.requested[t.stamped[r]].interval == duration
  {
    hide Inv, R.Enabled;
  }

  /** A call claimed by its timeout: the winner, or the completion, says so. */
  predicate TimedOut(s: State, r: nat) {
    || (r in s.rpc.finishing && s.rpc.finishing[r].kind == R.Timeout)
    || (exists c | c in s.rpc.completed :: c.request == r && c.kind == R.Timeout)
  }

  lemma ClampIsLonger(duration: int)
    ensures S.Clamp(duration) >= duration && S.Clamp(duration) >= 15_000_000
  {
  }

  /** Over every run of the protocol on the scheduler, whatever replies, other tasks
      and removals come before, in between and after: as long as less than its duration
      or less than 15 ms have passed since the clock was read when its timeout was
      scheduled, a call has not timed out. */
  lemma NoEarlyTimeout(before: seq<Action>, r: nat, duration: int, after: seq<Action>)
    requires Runs(START, before) && Enabled(Exec(START, before), Stamp(r, duration))
    requires Runs(Step(Exec(START, before), Stamp(r, duration)), after)
    requires TimedOut(Exec(Step(Exec(START, before), Stamp(r, duration)), after), r)
    ensures var s := Exec(START, before);
      var t := Exec(Step(s, Stamp(r, duration)), after);
      t.sched.clock >= s.sched.clock + duration && t.sched.clock >= s.sched.clock + 15_000_000
  {
    var s := Exec(START, before);
    var u := Step(s, Stamp(r, duration));
    var t := Exec(u, after);
    StartOk();
    RunKeeps(START, before);
    StampRecords(s, r, duration);
    StepKeeps(s, Stamp(r, duration));
    RunStands(u, after);
    RunKeeps(u, after);
    StampTime(s, r, duration);
    ClampIsLonger(duration);
    hide Exec, Runs, Step, R.Inv, SR.Inv, SR.ScannedWatched, IdsOk, TasksAgree, S.Clamp, Enabled;
    assert OnTime(t, r);
    hide TimeoutsOk, TimedOut;
  }

  lemma StampTime(s: State, r: nat, duration: int)
    requires Enabled(s, Stamp(r, duration))
    ensures Step(s, Stamp(r, duration)).sched.clock == s.sched.clock
  {
  }

  /** For the scheduler too a run of the composition is a run of its own. */
  lemma {:induction false} SchedulerProjects(s: State, actions: seq<Action>) returns (path: seq<S.Action>)
    requires Runs(s, actions)
    ensures S.Runs(s.sched, path) && S.Exec(s.sched, path) == Exec(s, actions).sched
    decreases |actions|
  {
    if actions == [] {
      path := [];
      NothingRuns(s.sched);
    } else {
      hide Step, Enabled, S.Step, S.Enabled, S.Runs, S.Exec;
      SchedProjects(s, actions[0]);
      var t := Step(s, actions[0]);
      var rest := SchedulerProjects(t, actions[1..]);
      if t.sched == s.sched {
        path := rest;
      } else {
        var b :| S.Enabled(s.sched, b) && S.Step(s.sched, b) == t.sched;
        path := [b] + rest;
        StepRuns(s.sched, b, rest);
      }
    }
  }

  lemma NothingRuns(s: S.State)
    ensures S.Runs(s, []) && S.Exec(s, []) == s
  {
  }

  lemma StepRuns(s: S.State, b: S.Action, rest: seq<S.Action>)
    requires S.Enabled(s, b) && S.Runs(S.Step(s, b), rest)
    ensures S.Runs(s, [b] + rest) && S.Exec(s, [b] + rest) == S.Exec(S.Step(s, b), rest)
  {
    hide S.Step, S.Enabled;
    assert ([b] + rest)[1..] == rest;
  }

  /** What is proved of all runs of the protocol holds on the scheduler: its part
      of a run of the composition is a run of its own. */
  lemma {:induction false} RunProjects(s: State, actions: seq<Action>) returns (path: seq<R.Action>)
    requires Inv(s) && Runs(s, actions)
    ensures R.Runs(s.rpc, path) && R.Exec(s.rpc, path) == Exec(s, actions).rpc
    decreases |actions|
  {
    if actions == [] {
      path := [];
      RR.ExecNothing(s.rpc);
    } else {
      hide Inv, Step, Enabled, R.Runs, R.Exec;
      StepKeeps(s, actions[0]);
      var first := RpcProjects(s, actions[0]);
      var rest := RunProjects(Step(s, actions[0]), actions[1..]);
      path := first + rest;
      RR.ExecConcat(s.rpc, first, rest);
    }
  }

  /** So on the scheduler too a call completes at most once, and a timed call that
      is pending and armed is either still in the task table or about to fire. */
  lemma ArmedCallIsScheduled(actions: seq<Action>, r: nat)
    requires Runs(START, actions)
    requires var s := Exec(START, actions); r in s.rpc.calls && R.IsArmed(s.rpc, r)
    ensures var s := Exec(START, actions);
      && r in s.rpc.timeouts && s.rpc.timeouts[r] in s.ids && R.OwnTask(s.rpc, r, s.rpc.timeouts[r])
      && var id := s.ids[s.rpc.timeouts[r]];
         (id in s.sched.tasks && !Marked(s.sched, id)) || SR.InPass(s.sched, id)
  {
    StartOk();
    RunKeeps(START, actions);
    var s := Exec(START, actions);
    hide Exec, Runs, R.PhasesOk, R.SlotsOk, R.RepliesOk, SR.Inv, SR.ScannedWatched, TimeoutsOk, SR.InPass, Marked;
  }
}
