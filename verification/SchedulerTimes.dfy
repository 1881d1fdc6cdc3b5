/** When tasks are due and when they fire, from what was asked for when they were
    added, over every run and over one undisturbed pass. */
module SchedulerTimes {
  import opened Sequences
  import opened Scheduler
  import opened SchedulerRuns

  // ------------------------------------------------------------------- requests

  /** Adding a task records what was asked for and when, and fixes its due time: the
      interval from now, or 15 ms if the interval is no longer than that. */
  lemma StampIsExact(s: State, interval: int, once: bool)
    ensures var t := Step(s, Stamp(interval, once));
      && t.nextId == s.nextId + 1
      && s.nextId in t.requested && t.requested[s.nextId] == Request(s.clock, interval, once)
      && s.nextId in t.adding && t.adding[s.nextId].once == once
      && t.adding[s.nextId].due == s.clock + (if interval <= 15_000_000 then 15_000_000 else interval)
      && t.adding[s.nextId].interval == if interval <= 15_000_000 then 15_000_000 else interval
  {
  }

  lemma RequestStep(s: State, a: Action)
    requires Inv(s) && Enabled(s, a)
    ensures var t := Step(s, a);
      && s.clock <= t.clock
      && forall id | id in s.requested :: id in t.requested && t.requested[id] == s.requested[id]
  {
    hide FiringsOk, DueOk, OnceOk, Scan, Erased;
  }

  lemma {:induction false} RequestRun(s: State, actions: seq<Action>)
    requires Inv(s) && Runs(s, actions)
    ensures var t := Exec(s, actions);
      && s.clock <= t.clock
      && forall id | id in s.requested :: id in t.requested && t.requested[id] == s.requested[id]
    decreases |actions|
  {
    hide Inv, Step, Enabled;
    if actions != [] {
      RequestStep(s, actions[0]);
      StepKeeps(s, actions[0]);
      RequestRun(Step(s, actions[0]), actions[1..]);
    }
  }

  // ------------------------------------------------------------------- due times

  function Period(q: Request): nat {
    if q.interval <= 15_000_000 then 15_000_000 else q.interval
  }

  /** A task that has not been collected is due its period after it was added; one
      that has been is due at most its period after it last fired, or after now while
      its callback is still to run. */
  predicate DueExact(s: State, id: nat)
    requires id in s.requested
  {
    && (id in s.adding ==> s.adding[id].due == s.requested[id].at + Period(s.requested[id]))
    && (id in s.tasks ==>
          if InPass(s, id) then s.tasks[id].due <= s.clock + Period(s.requested[id])
          else if Fired(s, id) == [] then s.tasks[id].due == s.requested[id].at + Period(s.requested[id])
          else s.tasks[id].due <= Fired(s, id)[|Fired(s, id)| - 1] + Period(s.requested[id]))
  }

  ghost predicate AllDueExact(s: State) {
    forall id | id in s.requested :: DueExact(s, id)
  }

  /** A step that leaves firings and pass alone. */
  lemma DueUntouched(s: State, t: State, id: nat)
    requires id in s.requested && id in t.requested && t.requested[id] == s.requested[id] && DueExact(s, id)
    requires Fired(t, id) == Fired(s, id) && t.clock >= s.clock && InPass(t, id) == InPass(s, id)
    requires id in t.tasks ==> id in s.tasks && t.tasks[id] == s.tasks[id]
    requires id in t.adding ==> id in s.adding && t.adding[id] == s.adding[id]
    ensures DueExact(t, id)
  {
    hide InPass, Fired, Period;
  }

  lemma DueEasy(s: State, a: Action, id: nat)
    requires Inv(s) && Enabled(s, a) && (a.Tick? || a.Remove? || a.Notify? || a.EndPass?)
    requires id in s.requested && DueExact(s, id)
    ensures id in Step(s, a).requested && DueExact(Step(s, a), id)
  {
    var t := Step(s, a);
    assert Fired(t, id) == Fired(s, id) && InPass(t, id) == InPass(s, id);
    hide Inv;
    DueUntouched(s, t, id);
  }

  lemma DueStamp(s: State, a: Action, id: nat)
    requires Inv(s) && a.Stamp? && id in Step(s, a).requested
    requires id in s.requested ==> DueExact(s, id)
    ensures DueExact(Step(s, a), id)
  {
    var t := Step(s, a);
    if id == s.nextId {
      assert id !in s.requested;
      hide FiringsOk, DueOk, OnceOk;
    } else {
      assert Fired(t, id) == Fired(s, id) && InPass(t, id) == InPass(s, id);
      hide Inv;
      DueUntouched(s, t, id);
    }
  }

  lemma DueEmplace(s: State, q: nat, id: nat)
    requires Inv(s) && Enabled(s, Emplace(q)) && id in s.requested && DueExact(s, id)
    ensures DueExact(Step(s, Emplace(q)), id)
  {
    var t := Step(s, Emplace(q));
    assert Fired(t, id) == Fired(s, id) && InPass(t, id) == InPass(s, id);
    if id == q {
      assert DueOk(s, id);
      hide FiringsOk, OnceOk, Mark, Period;
    } else {
      hide Inv;
      DueUntouched(s, t, id);
    }
  }

  lemma DueCollect(s: State, order: seq<nat>, id: nat)
    requires Inv(s) && Enabled(s, Collect(order)) && id in s.requested && DueExact(s, id)
    ensures DueExact(Step(s, Collect(order)), id)
  {
    var t := Step(s, Collect(order));
    CollectFacts(s, order);
    assert DueOk(s, id);
    ClampedMark(s.requested[id], 0);
    assert Fired(t, id) == Fired(s, id) && !InPass(s, id);
    assert InPass(t, id) <==> IsDue(s.tasks, id, s.clock);
    hide Step, Enabled, FiringsOk, OnceOk, Mark, Fired, InPass;
  }

  lemma DueCallback(s: State, id: nat)
    requires Inv(s) && Enabled(s, RunCallback) && id in s.requested && DueExact(s, id)
    ensures DueExact(Step(s, RunCallback), id)
  {
    var t := Step(s, RunCallback);
    var head := s.thread.pass.todo[0];
    if id == head {
      assert InPass(s, id) && !InPass(t, id);
      assert Fired(t, id) == Fired(s, id) + [s.clock];
      assert DueOk(s, id);
      hide Inv, InPass, Fired, Period;
    } else {
      assert InPass(s, id) <==> InPass(t, id);
      hide Inv;
      DueUntouched(s, t, id);
    }
  }

  lemma DueStep(s: State, a: Action)
    requires Inv(s) && Enabled(s, a) && AllDueExact(s)
    ensures AllDueExact(Step(s, a))
  {
    RequestsOf(s, a);
    hide Inv, Step, Enabled, DueExact;
    forall id | id in Step(s, a).requested ensures DueExact(Step(s, a), id) {
      match a
      case Stamp(_, _) => DueStamp(s, a, id);
      case Emplace(q) => DueEmplace(s, q, id);
      case Collect(order) => DueCollect(s, order, id);
      case RunCallback => DueCallback(s, id);
      case _ => DueEasy(s, a, id);
    }
  }

  lemma RequestsOf(s: State, a: Action)
    requires Enabled(s, a)
    ensures !a.Stamp? ==> Step(s, a).requested == s.requested
  {
    hide Scan, Erased;
  }

  lemma {:induction false} DueRun(s: State, actions: seq<Action>)
    requires Inv(s) && Runs(s, actions) && AllDueExact(s)
    ensures AllDueExact(Exec(s, actions))
    decreases |actions|
  {
    hide Inv, Step, Enabled, AllDueExact;
    if actions != [] {
      DueStep(s, actions[0]);
      StepKeeps(s, actions[0]);
      DueRun(Step(s, actions[0]), actions[1..]);
    }
  }

  /** A task in the table of a run is due: before it has been collected, exactly its
      interval, or 15 ms if that is longer, after it was added; afterwards never later
      than that after its last firing. Together with the rate bound this fixes the
      due time of a task that fires without delay. */
  lemma DueTimes(before: seq<Action>, interval: int, once: bool, after: seq<Action>)
    requires Runs(START, before) && Runs(Step(Exec(START, before), Stamp(interval, once)), after)
    ensures var s := Exec(START, before);
      var t := Exec(Step(s, Stamp(interval, once)), after);
      var period := if interval <= 15_000_000 then 15_000_000 else interval;
      var id := s.nextId;
      && (id in t.adding ==> t.adding[id].due == s.clock + period)
      && (id in t.tasks && !(t.thread.Running? && id in t.thread.pass.todo) ==>
            if Fired(t, id) == [] then t.tasks[id].due == s.clock + period
            else t.tasks[id].due <= Fired(t, id)[|Fired(t, id)| - 1] + period)
  {
    var s := Exec(START, before);
    var u := Step(s, Stamp(interval, once));
    var t := Exec(u, after);
    assert Inv(START) && AllDueExact(START);
    RunKeeps(START, before);
    DueRun(START, before);
    StampIsExact(s, interval, once);
    StepKeeps(s, Stamp(interval, once));
    DueStep(s, Stamp(interval, once));
    DueRun(u, after);
    RequestRun(u, after);
    hide Exec, Runs, Step, Inv;
    assert DueExact(t, s.nextId);
  }

  /** And it fires for the k-th time no earlier than k of its intervals, and than k
      times 15 ms, after it was added, a one-shot at most once. */
  lemma RateOfTask(before: seq<Action>, interval: int, once: bool, after: seq<Action>, k: nat)
    requires Runs(START, before) && Runs(Step(Exec(START, before), Stamp(interval, once)), after)
    requires k < |Fired(Exec(Step(Exec(START, before), Stamp(interval, once)), after), Exec(START, before).nextId)|
    ensures var s := Exec(START, before);
      var t := Exec(Step(s, Stamp(interval, once)), after);
      && Fired(t, s.nextId)[k] >= s.clock + (k + 1) * interval
      && Fired(t, s.nextId)[k] >= s.clock + (k + 1) * 15_000_000
      && (once ==> |Fired(t, s.nextId)| == 1)
  {
    var s := Exec(START, before);
    var u := Step(s, Stamp(interval, once));
    var t := Exec(u, after);
    var id := s.nextId;
    assert Inv(START);
    RunKeeps(START, before);
    StampIsExact(s, interval, once);
    StepKeeps(s, Stamp(interval, once));
    RunKeeps(u, after);
    RequestRun(u, after);
    hide Exec, Runs, Step;
    assert FiringsOk(t, id) && OnceOk(t, id);
    ClampedMark(t.requested[id], k + 1);
    hide Inv, Mark, Fired;
  }

  // ------------------------------------------------------- one undisturbed pass

  function Callbacks(n: nat): seq<Action> {
    if n == 0 then [] else [RunCallback] + Callbacks(n - 1)
  }

  /** The state after all callbacks of a pass. */
  ghost predicate Ran(s: State, t: State) {
    && s.thread.Running?
    && t == s.(thread := Running(s.thread.pass.(todo := [])), fired := t.fired)
    && (forall id :: Fired(t, id) == Fired(s, id) + if id in s.thread.pass.todo then [s.clock] else [])
  }

  lemma RanNothing(s: State)
    requires s.thread.Running? && s.thread.pass.todo == []
    ensures Ran(s, s)
  {
  }

  lemma RanNext(s: State, u: State, t: State)
    requires s.thread.Running? && s.thread.pass.todo != []
    requires s.thread.pass.todo[0] !in s.thread.pass.todo[1..]
    requires u == Step(s, RunCallback) && Ran(u, t)
    ensures Ran(s, t)
  {
    var todo := s.thread.pass.todo;
    assert todo == [todo[0]] + todo[1..];
    forall id ensures Fired(t, id) == Fired(s, id) + if id in todo then [s.clock] else [] {
      assert Fired(t, id) == Fired(u, id) + if id in todo[1..] then [s.clock] else [];
      assert Fired(u, id) == if id == todo[0] then Fired(s, id) + [s.clock] else Fired(s, id);
    }
  }

  lemma {:induction false} CallbacksRun(s: State)
    requires s.thread.Running?
    requires forall i, j | 0 <= i < j < |s.thread.pass.todo| :: s.thread.pass.todo[i] != s.thread.pass.todo[j]
    ensures Runs(s, Callbacks(|s.thread.pass.todo|)) && Ran(s, Exec(s, Callbacks(|s.thread.pass.todo|)))
    decreases |s.thread.pass.todo|
  {
    var todo := s.thread.pass.todo;
    if todo == [] {
      RanNothing(s);
    } else {
      var u := Step(s, RunCallback);
      assert u.thread.Running? && u.thread.pass.todo == todo[1..];
      CallbacksRun(u);
      var rest := Callbacks(|todo| - 1);
      assert Callbacks(|todo|)[1..] == rest;
      hide Ran;
      RanNext(s, u, Exec(u, rest));
    }
  }

  /** What an undisturbed pass makes of the table: due one-shots are gone, other due
      tasks are due again one interval from now, the rest is untouched. */
  ghost predicate TablePassed(s: State, t: State) {
    && (forall id | id in s.tasks ::
          if s.clock < s.tasks[id].due then id in t.tasks && t.tasks[id] == s.tasks[id]
          else if s.tasks[id].once then id !in t.tasks
          else id in t.tasks && t.tasks[id] == s.tasks[id].(due := s.clock + s.tasks[id].interval))
    && (forall id | id in t.tasks :: id in s.tasks)
  }

  /** Exactly the due tasks have fired, once, now. */
  ghost predicate DueFired(s: State, t: State) {
    forall id :: Fired(t, id) == Fired(s, id) + if id in s.tasks && s.tasks[id].due <= s.clock then [s.clock] else []
  }

  /** The thread sleeps until the earliest due time of the table, without limit if the
      table is empty. */
  ghost predicate SleepsToEarliest(t: State) {
    && t.thread.Waiting?
    && (t.thread.wake.None? <==> t.tasks == map[])
    && (t.thread.wake.Some? ==>
          && (exists id :: id in t.tasks && t.tasks[id].due == t.thread.wake.value)
          && (forall id | id in t.tasks :: t.thread.wake.value <= t.tasks[id].due))
  }

  function PassSteps(order: seq<nat>, n: nat): seq<Action> {
    [Collect(order)] + (Callbacks(n) + [EndPass])
  }

  lemma PassedFirings(s: State, order: seq<nat>, u: State, v: State, t: State)
    requires Enabled(s, Collect(order)) && u == Step(s, Collect(order)) && Ran(u, v) && t.fired == v.fired
    ensures DueFired(s, t)
  {
    CollectFacts(s, order);
    assert forall id :: Fired(t, id) == Fired(v, id) && Fired(u, id) == Fired(s, id);
    assert forall id :: id in u.thread.pass.todo <==> id in s.tasks && s.tasks[id].due <= s.clock;
    assert u.clock == s.clock;
    hide Step, Enabled, Fired, Rescheduled, IsDue;
  }

  lemma EndShape(u: State, v: State)
    requires Ran(u, v) && Enabled(v, EndPass)
    ensures u.thread.Running?
    ensures var t := Step(v, EndPass);
      && t.fired == v.fired && t.clock == u.clock
      && t.tasks == Erased(u.tasks, u.thread.pass.oneShots) && t.thread == Waiting(u.thread.pass.wake, false)
  {
    hide Fired, Erased;
  }

  lemma PassedParts(s: State, order: seq<nat>, u: State, v: State, t: State)
    requires Enabled(s, Collect(order)) && u == Step(s, Collect(order)) && Ran(u, v)
    requires Enabled(v, EndPass) && t == Step(v, EndPass)
    ensures TablePassed(s, t) && DueFired(s, t) && SleepsToEarliest(t) && t.clock == s.clock
  {
    hide Step, Enabled, Ran, Fired, Rescheduled, IsDue, Survives, WakesFor, Erased, Enumerates;
    CollectFacts(s, order);
    WakeIsEarliest(s, order);
    EndShape(u, v);
    PassedFirings(s, order, u, v, t);
    PassedTable(s, u, t);
    PassedWake(s, u, t);
  }

  lemma WakeIsEarliest(s: State, order: seq<nat>)
    requires Enabled(s, Collect(order))
    ensures var u := Step(s, Collect(order));
      u.thread.pass.wake.Some? ==>
        exists id :: id in s.tasks && Survives(s.tasks, id, s.clock) && u.tasks[id].due == u.thread.pass.wake.value
    ensures var u := Step(s, Collect(order));
      forall id | id in s.tasks && Survives(s.tasks, id, s.clock) :: WakesFor(u.thread.pass.wake, u.tasks[id])
  {
    PassIsExact(s.tasks, order, s.clock);
    hide Scan;
  }

  lemma PassedTable(s: State, u: State, t: State)
    requires u.thread.Running? && u.tasks.Keys == s.tasks.Keys && t.tasks == Erased(u.tasks, u.thread.pass.oneShots)
    requires forall id | id in s.tasks :: u.tasks[id] == Rescheduled(s.tasks[id], s.clock)
    requires forall id :: id in u.thread.pass.oneShots <==> IsDue(s.tasks, id, s.clock) && s.tasks[id].once
    ensures forall id | id in s.tasks ::
          if s.clock < s.tasks[id].due then id in t.tasks && t.tasks[id] == s.tasks[id]
          else if s.tasks[id].once then id !in t.tasks
          else id in t.tasks && t.tasks[id] == s.tasks[id].(due := s.clock + s.tasks[id].interval)
    ensures forall id | id in t.tasks :: id in s.tasks && Survives(s.tasks, id, s.clock) && t.tasks[id] == u.tasks[id]
    ensures forall id | id in s.tasks && Survives(s.tasks, id, s.clock) :: id in t.tasks
  {
  }

  lemma PassedWake(s: State, u: State, t: State)
    requires u.thread.Running? && t.thread == Waiting(u.thread.pass.wake, false)
    requires forall id | id in t.tasks :: id in s.tasks && Survives(s.tasks, id, s.clock) && id in u.tasks && t.tasks[id] == u.tasks[id]
    requires forall id | id in s.tasks && Survives(s.tasks, id, s.clock) :: id in t.tasks
    requires u.tasks.Keys == s.tasks.Keys
    requires forall id | id in s.tasks && Survives(s.tasks, id, s.clock) :: WakesFor(u.thread.pass.wake, u.tasks[id])
    requires u.thread.pass.wake.Some? ==>
        exists id :: id in s.tasks && Survives(s.tasks, id, s.clock) && u.tasks[id].due == u.thread.pass.wake.value
    ensures t.thread.wake.None? <==> t.tasks == map[]
    ensures t.thread.wake.Some? ==>
          && (exists id :: id in t.tasks && t.tasks[id].due == t.thread.wake.value)
          && (forall id | id in t.tasks :: t.thread.wake.value <= t.tasks[id].due)
  {
    hide Survives;
    assert forall id | id in t.tasks :: WakesFor(u.thread.pass.wake, u.tasks[id]);
  }

  /** A pass with nothing in between, whatever the order of the table: every due task
      fires once, now; due one-shots are gone; other due tasks are due again one
      interval from now; tasks not due are untouched; and the thread sleeps until the
      earliest due time of the tasks left, without limit if there are none. */
  lemma PassRuns(s: State, order: seq<nat>) returns (path: seq<Action>)
    requires s.thread.Waiting? && s.tasks != map[] && Enumerates(order, s.tasks.Keys)
    ensures Runs(s, path)
    ensures var t := Exec(s, path); TablePassed(s, t) && DueFired(s, t) && SleepsToEarliest(t) && t.clock == s.clock
  {
    var u := Step(s, Collect(order));
    CollectFacts(s, order);
    var n := |u.thread.pass.todo|;
    CallbacksRun(u);
    var v := Exec(u, Callbacks(n));
    assert v.thread.Running? && v.thread.pass.todo == [];
    var t := Step(v, EndPass);
    PassedParts(s, order, u, v, t);
    path := PassSteps(order, n);
    hide Ran, TablePassed, DueFired, SleepsToEarliest, Step;
    EndAppended(u, Callbacks(n));
    assert path[1..] == Callbacks(n) + [EndPass];
  }

  lemma {:induction false} EndAppended(s: State, path: seq<Action>)
    requires Runs(s, path) && Enabled(Exec(s, path), EndPass)
    ensures Runs(s, path + [EndPass]) && Exec(s, path + [EndPass]) == Step(Exec(s, path), EndPass)
    decreases |path|
  {
    hide Step, Enabled;
    if path == [] {
      assert path + [EndPass] == [EndPass];
      assert [EndPass][1..] == [];
    } else {
      EndAppended(Step(s, path[0]), path[1..]);
      assert (path + [EndPass])[1..] == path[1..] + [EndPass];
    }
  }
}
