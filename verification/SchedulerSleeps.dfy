/** Exactly which runs of the scheduler sleep past a task, and two that do. */
module SchedulerSleeps {
  import opened Sequences
  import opened Scheduler
  import opened SchedulerRuns

  /** A sleeping thread that has not been notified and will not be wakes in time for
      every task. */
  predicate SleepOk(s: State) {
    s.thread.Waiting? && !s.thread.notified && s.owed == 0 ==>
      forall id | id in s.tasks :: WakesFor(s.thread.wake, s.tasks[id])
  }

  /** In no state of the run is a task slept past. */
  ghost predicate NeverOversleeps(s: State, actions: seq<Action>)
    requires Runs(s, actions)
    decreases |actions|
  {
    SleepOk(s) && (actions == [] || NeverOversleeps(Step(s, actions[0]), actions[1..]))
  }

  /** A task enters the table while callbacks run and is due before the wake time
      that the pass has already computed, or the pass has computed none. */
  predicate TooEarly(s: State, a: Action) {
    a.Emplace? && a.id in s.adding && s.thread.Running? && !WakesFor(s.thread.pass.wake, s.adding[a.id])
  }

  /** The notifications still to come after a step. */
  function Owed(owed: nat, a: Action): nat {
    if a.Emplace? || a.Remove? then owed + 1 else if a.Notify? && owed > 0 then owed - 1 else owed
  }

  /** If the pass ends at all, the task is removed before, or some notification is
      still to come when it ends. */
  predicate Settled(owed: nat, actions: seq<Action>, id: nat)
    decreases |actions|
  {
    actions == [] ||
    if actions[0] == EndPass then owed > 0
    else actions[0] == Remove(id) || Settled(Owed(owed, actions[0]), actions[1..], id)
  }

  /** Every task that enters the table too early is settled before its pass ends. */
  ghost predicate EarlyOnesSettled(s: State, actions: seq<Action>)
    requires Runs(s, actions)
    decreases |actions|
  {
    actions == [] ||
    ((TooEarly(s, actions[0]) ==> Settled(s.owed + 1, actions[1..], actions[0].id))
     && EarlyOnesSettled(Step(s, actions[0]), actions[1..]))
  }

  predicate Unwatched(s: State, id: nat) {
    s.thread.Running? && id in s.tasks && !Watched(s, id)
  }

  lemma CollectUnwatched(s: State, order: seq<nat>)
    requires Enabled(s, Collect(order))
    ensures forall id :: !Unwatched(Step(s, Collect(order)), id)
  {
    CollectWatches(s, order);
    hide Step, Enabled;
  }

  lemma EmplaceUnwatched(s: State, id: nat, q: nat)
    requires Inv(s) && ScannedWatched(s) && Enabled(s, Emplace(q))
    ensures Unwatched(Step(s, Emplace(q)), id) <==> Unwatched(s, id) || (TooEarly(s, Emplace(q)) && id == q)
  {
    assert DueOk(s, q);
    hide FiringsOk, OnceOk, Mark;
  }

  /** What a step other than the end of a pass does to the tasks not watched. */
  lemma UnwatchedStep(s: State, a: Action, id: nat)
    requires Inv(s) && ScannedWatched(s) && Enabled(s, a) && a != EndPass
    ensures Unwatched(Step(s, a), id) <==> (Unwatched(s, id) && a != Remove(id)) || (TooEarly(s, a) && a.id == id)
  {
    if a.Emplace? {
      EmplaceUnwatched(s, id, a.id);
    } else if a.Collect? {
      CollectUnwatched(s, a.order);
    } else {
      hide Inv, Scan;
    }
  }

  /** A sleeping thread stays in time or gets notified. */
  lemma WaitingStep(s: State, a: Action)
    requires Enabled(s, a) && a != EndPass && (s.thread.Waiting? ==> AllWatched(s))
    ensures Step(s, a).thread.Waiting? ==> AllWatched(Step(s, a))
  {
    if s.thread.Waiting? { WatchedStep(s, a); }
    hide Scan, AllWatched;
  }

  lemma EndUnwatched(s: State)
    requires Enabled(s, EndPass)
    ensures var t := Step(s, EndPass);
      && t.thread.Waiting? && (SleepOk(t) <==> AllWatched(t))
      && (AllWatched(t) <==> s.owed > 0 || forall id :: !Unwatched(s, id))
  {
    var t := Step(s, EndPass);
    forall id | id in t.tasks ensures Watched(t, id) <==> s.owed > 0 || !Unwatched(s, id) {
    }
    forall id | Unwatched(s, id) ensures id in t.tasks {
    }
  }

  /** A pass that ends now leaves no task slept past if and only if every task not
      watched is settled. */
  lemma EndSettles(s: State, actions: seq<Action>)
    requires Enabled(s, EndPass) && actions != [] && actions[0] == EndPass
    ensures AllWatched(Step(s, EndPass)) <==> forall id | Unwatched(s, id) :: Settled(s.owed, actions, id)
  {
    EndUnwatched(s);
    hide Unwatched, AllWatched, Step, Enabled;
    forall id ensures Settled(s.owed, actions, id) <==> s.owed > 0 {
    }
    hide Settled;
  }

  lemma SleepStarts(s: State, actions: seq<Action>)
    requires Runs(s, actions)
    ensures NeverOversleeps(s, actions) ==> SleepOk(s)
  {
  }

  lemma WatchedSleeps(s: State)
    requires s.thread.Waiting? ==> AllWatched(s)
    ensures SleepOk(s)
  {
  }

  lemma OwedAfter(s: State, a: Action)
    requires Enabled(s, a)
    ensures Step(s, a).owed == Owed(s.owed, a)
  {
    hide Scan, Erased;
  }

  /** What has to be settled after a step and what before it. */
  lemma SettledShifts(s: State, t: State, actions: seq<Action>)
    requires actions != [] && actions[0] != EndPass && t.owed == Owed(s.owed, actions[0])
    requires var a := actions[0];
      forall id :: Unwatched(t, id) <==> (Unwatched(s, id) && a != Remove(id)) || (TooEarly(s, a) && a.id == id)
    ensures (forall id | Unwatched(t, id) :: Settled(t.owed, actions[1..], id)) <==>
            (forall id | Unwatched(s, id) :: Settled(s.owed, actions, id))
            && (TooEarly(s, actions[0]) ==> Settled(s.owed + 1, actions[1..], actions[0].id))
  {
    hide Unwatched;
    assert TooEarly(s, actions[0]) ==> actions[0].Emplace? && t.owed == s.owed + 1;
    hide TooEarly;
    forall id ensures Settled(s.owed, actions, id) <==> actions[0] == Remove(id) || Settled(t.owed, actions[1..], id) {
    }
    hide Settled;
  }

  lemma {:induction false} OversleepsFrom(s: State, actions: seq<Action>)
    requires Inv(s) && ScannedWatched(s) && Runs(s, actions) && (s.thread.Waiting? ==> AllWatched(s))
    ensures NeverOversleeps(s, actions) <==>
            (forall id | Unwatched(s, id) :: Settled(s.owed, actions, id)) && EarlyOnesSettled(s, actions)
    decreases |actions|
  {
    WatchedSleeps(s);
    hide Step, Inv, ScannedWatched, AllWatched, SleepOk, Enabled;
    if actions != [] {
      var a, rest := actions[0], actions[1..];
      var t := Step(s, a);
      SchedulerRuns.StepKeeps(s, a);
      ScannedStep(s, a);
      if a == EndPass {
        EndUnwatched(s);
        EndSettles(s, actions);
        SleepStarts(t, rest);
        assert !TooEarly(s, a);
        hide Unwatched, Settled, TooEarly;
        if AllWatched(t) {
          WaitingUnwatched(t);
          OversleepsFrom(t, rest);
        }
      } else {
        WaitingStep(s, a);
        forall id ensures Unwatched(t, id) <==> (Unwatched(s, id) && a != Remove(id)) || (TooEarly(s, a) && a.id == id) {
          UnwatchedStep(s, a, id);
        }
        OwedAfter(s, a);
        SettledShifts(s, t, actions);
        hide TooEarly, Unwatched;
        OversleepsFrom(t, rest);
      }
    }
  }

  lemma WaitingUnwatched(s: State)
    requires s.thread.Waiting?
    ensures forall id :: !Unwatched(s, id)
  {
  }

  /** Exactly which runs sleep past no task: those in which every task that enters
      the table while callbacks run is due no earlier than the wake time the pass has
      computed, or is removed before that pass ends, or the pass ends with a
      notification still to come. */
  lemma NeverOversleepsIff(actions: seq<Action>)
    requires Runs(START, actions)
    ensures NeverOversleeps(START, actions) <==> EarlyOnesSettled(START, actions)
  {
    assert Inv(START) && ScannedWatched(START) && AllWatched(START);
    WaitingUnwatched(START);
    hide Inv, ScannedWatched, AllWatched;
    OversleepsFrom(START, actions);
  }

  /** A sleep without a wake time lasts until somebody notifies the thread, however
      much time passes: adding a task takes effect only when it enters the table. */
  lemma {:induction false} SleepHasNoEnd(s: State, actions: seq<Action>)
    requires s.thread == Waiting(None, false) && s.owed == 0 && Runs(s, actions)
    requires forall i | 0 <= i < |actions| :: actions[i].Tick? || actions[i].Stamp?
    ensures Exec(s, actions).thread == Waiting(None, false) && Exec(s, actions).tasks == s.tasks
    decreases |actions|
  {
    if actions != [] {
      SleepHasNoEnd(Step(s, actions[0]), actions[1..]);
    }
  }

  // -------------------------------------------------------------------- examples

  /** A task of one second is collected; while its callback runs a task of 15 ms
      is added. The thread then sleeps a whole second, past the new task. */
  function SleptPast(): seq<Action> {
    [Stamp(1_000_000_000, false), Emplace(1), Notify, Tick(1_000_000_000), Collect([1]),
     Stamp(0, true), Emplace(2), Notify, RunCallback, EndPass]
  }

  const SLOW := Request(0, 1_000_000_000, false)
  const BRIEF := Request(1_000_000_000, 0, true)
  const SLOW_TASK := Task(1_000_000_000, 1_000_000_000, false)
  const SLOW_AGAIN := Task(1_000_000_000, 2_000_000_000, false)
  const BRIEF_TASK := Task(MIN_INTERVAL, 1_015_000_000, true)
  const SLOW_STAMPED := State(0, 2, map[1 := SLOW], map[1 := SLOW_TASK], map[], Waiting(None, false), 0, map[])
  const SLOW_ADDED := SLOW_STAMPED.(adding := map[], tasks := map[1 := SLOW_TASK], owed := 1)
  const SLOW_TOLD := SLOW_ADDED.(thread := Waiting(None, true), owed := 0)
  const SLOW_DUE := SLOW_TOLD.(clock := 1_000_000_000)
  const SLOW_TAKEN := SLOW_DUE.(tasks := map[1 := SLOW_AGAIN], thread := Running(Pass([1], [], Some(2_000_000_000), {1})))
  const BRIEF_STAMPED := SLOW_TAKEN.(nextId := 3, requested := map[1 := SLOW, 2 := BRIEF], adding := map[2 := BRIEF_TASK])
  const BRIEF_ADDED := BRIEF_STAMPED.(adding := map[], tasks := map[1 := SLOW_AGAIN, 2 := BRIEF_TASK], owed := 1)
  const BRIEF_TOLD := BRIEF_ADDED.(owed := 0)
  const SLOW_RAN := BRIEF_TOLD.(thread := Running(Pass([], [], Some(2_000_000_000), {1})), fired := map[1 := [1_000_000_000]])
  const OVERSLEPT := SLOW_RAN.(thread := Waiting(Some(2_000_000_000), false))

  lemma ScanSlow()
    ensures Scan(map[1 := SLOW_TASK], [1], 1_000_000_000) == Gathered(map[1 := SLOW_AGAIN], [1], [], Some(2_000_000_000))
  {
    var tasks := map[1 := SLOW_TASK];
    assert [1][..0] == [];
    var empty := Gathered(tasks, [], [], None);
    assert Scan(tasks, [], 1_000_000_000) == empty;
    assert Scan(tasks, [1], 1_000_000_000) == Visit(empty, 1, 1_000_000_000);
    hide Scan;
    assert tasks[1 := SLOW_AGAIN] == map[1 := SLOW_AGAIN];
    assert [] + [1] == [1];
  }

  lemma CollectSlow()
    ensures Enabled(SLOW_DUE, Collect([1])) && Step(SLOW_DUE, Collect([1])) == SLOW_TAKEN
  {
    ScanSlow();
    hide Scan, Visit;
    assert 1 in SLOW_DUE.tasks;
    assert SLOW_DUE.tasks.Keys == {1} && Enumerates([1], {1});
  }

  lemma AddSlow()
    ensures Step(START, Stamp(1_000_000_000, false)) == SLOW_STAMPED
    ensures Enabled(SLOW_STAMPED, Emplace(1)) && Step(SLOW_STAMPED, Emplace(1)) == SLOW_ADDED
    ensures Enabled(SLOW_ADDED, Notify) && Step(SLOW_ADDED, Notify) == SLOW_TOLD
    ensures Step(SLOW_TOLD, Tick(1_000_000_000)) == SLOW_DUE
  {
    hide Scan, Erased;
  }

  lemma AddBrief()
    ensures Step(SLOW_TAKEN, Stamp(0, true)) == BRIEF_STAMPED
    ensures Enabled(BRIEF_STAMPED, Emplace(2)) && Step(BRIEF_STAMPED, Emplace(2)) == BRIEF_ADDED
    ensures Enabled(BRIEF_ADDED, Notify) && Step(BRIEF_ADDED, Notify) == BRIEF_TOLD
  {
    hide Scan, Erased;
    assert map[1 := SLOW][2 := BRIEF] == map[1 := SLOW, 2 := BRIEF];
    assert map[1 := SLOW_AGAIN][2 := BRIEF_TASK] == map[1 := SLOW_AGAIN, 2 := BRIEF_TASK];
  }

  lemma RunSlow()
    ensures Enabled(BRIEF_TOLD, RunCallback) && Step(BRIEF_TOLD, RunCallback) == SLOW_RAN
  {
    assert [1][1..] == [] && Fired(BRIEF_TOLD, 1) + [1_000_000_000] == [1_000_000_000];
    hide Scan, Erased;
  }

  lemma EndSlow()
    ensures Enabled(SLOW_RAN, EndPass) && Step(SLOW_RAN, EndPass) == OVERSLEPT
  {
    assert Erased(SLOW_RAN.tasks, []) == SLOW_RAN.tasks;
    hide Scan, Erased;
  }

  /** The hypothesis of NoTaskIsSleptPast is needed: the new task is due almost a
      second before the thread wakes, and nothing is due to wake it earlier. */
  lemma SleptPastExample()
    ensures Runs(START, SleptPast()) && Exec(START, SleptPast()) == OVERSLEPT
    ensures OVERSLEPT.thread == Waiting(Some(2_000_000_000), false) && OVERSLEPT.owed == 0
    ensures OVERSLEPT.tasks[2].due == 1_015_000_000
  {
    hide Step, Enabled, Scan, Runs, Exec;
    AddSlow();
    CollectSlow();
    AddBrief();
    RunSlow();
    EndSlow();
    EnabledClock(START, 1_000_000_000, false);
    EnabledClock(SLOW_TAKEN, 0, true);
    EnabledClock(SLOW_TOLD, 1_000_000_000, true);
    ExecNothing(OVERSLEPT);
    Prepend(SLOW_RAN, EndPass, [], OVERSLEPT, OVERSLEPT);
    var p9 := [EndPass] + [];
    Prepend(BRIEF_TOLD, RunCallback, p9, SLOW_RAN, OVERSLEPT);
    var p8 := [RunCallback] + p9;
    Prepend(BRIEF_ADDED, Notify, p8, BRIEF_TOLD, OVERSLEPT);
    var p7 := [Notify] + p8;
    Prepend(BRIEF_STAMPED, Emplace(2), p7, BRIEF_ADDED, OVERSLEPT);
    var p6 := [Emplace(2)] + p7;
    Prepend(SLOW_TAKEN, Stamp(0, true), p6, BRIEF_STAMPED, OVERSLEPT);
    var p5 := [Stamp(0, true)] + p6;
    Prepend(SLOW_DUE, Collect([1]), p5, SLOW_TAKEN, OVERSLEPT);
    var p4 := [Collect([1])] + p5;
    Prepend(SLOW_TOLD, Tick(1_000_000_000), p4, SLOW_DUE, OVERSLEPT);
    var p3 := [Tick(1_000_000_000)] + p4;
    Prepend(SLOW_ADDED, Notify, p3, SLOW_TOLD, OVERSLEPT);
    var p2 := [Notify] + p3;
    Prepend(SLOW_STAMPED, Emplace(1), p2, SLOW_ADDED, OVERSLEPT);
    var p1 := [Emplace(1)] + p2;
    Prepend(START, Stamp(1_000_000_000, false), p1, SLOW_STAMPED, OVERSLEPT);
    assert SleptPast() == [Stamp(1_000_000_000, false)] + p1;
  }

  lemma ExecNothing(s: State)
    ensures Runs(s, []) && Exec(s, []) == s
  {
  }

  /** Time may pass and a task be stamped in every state. */
  lemma EnabledClock(s: State, amount: nat, once: bool)
    ensures Enabled(s, Stamp(amount, once)) && Enabled(s, Tick(amount))
  {
  }

  lemma Prepend(s: State, a: Action, rest: seq<Action>, t: State, z: State)
    requires Enabled(s, a) && Step(s, a) == t && Runs(t, rest) && Exec(t, rest) == z
    ensures Runs(s, [a] + rest) && Exec(s, [a] + rest) == z
  {
    hide Step, Enabled;
    assert ([a] + rest)[1..] == rest;
  }

  /** A one-shot whose callback schedules it again, as the load tester's clients
      do, when it is the only task: the pass has computed no wake time. */
  function Readded(): seq<Action> {
    [Stamp(1_000_000_000, true), Emplace(1), Notify, Tick(1_000_000_000), Collect([1]),
     Stamp(1_000_000_000, true), Emplace(2), Notify, RunCallback, EndPass]
  }

  const ONCE := Request(0, 1_000_000_000, true)
  const AGAIN := Request(1_000_000_000, 1_000_000_000, true)
  const ONCE_TASK := Task(1_000_000_000, 1_000_000_000, true)
  const AGAIN_TASK := Task(1_000_000_000, 2_000_000_000, true)
  const ONCE_STAMPED := State(0, 2, map[1 := ONCE], map[1 := ONCE_TASK], map[], Waiting(None, false), 0, map[])
  const ONCE_ADDED := ONCE_STAMPED.(adding := map[], tasks := map[1 := ONCE_TASK], owed := 1)
  const ONCE_TOLD := ONCE_ADDED.(thread := Waiting(None, true), owed := 0)
  const ONCE_DUE := ONCE_TOLD.(clock := 1_000_000_000)
  const ONCE_TAKEN := ONCE_DUE.(tasks := map[1 := AGAIN_TASK], thread := Running(Pass([1], [1], None, {1})))
  const AGAIN_STAMPED := ONCE_TAKEN.(nextId := 3, requested := map[1 := ONCE, 2 := AGAIN], adding := map[2 := AGAIN_TASK])
  const AGAIN_ADDED := AGAIN_STAMPED.(adding := map[], tasks := map[1 := AGAIN_TASK, 2 := AGAIN_TASK], owed := 1)
  const AGAIN_TOLD := AGAIN_ADDED.(owed := 0)
  const ONCE_RAN := AGAIN_TOLD.(thread := Running(Pass([], [1], None, {1})), fired := map[1 := [1_000_000_000]])
  const STRANDED := ONCE_RAN.(tasks := map[2 := AGAIN_TASK], thread := Waiting(None, false))

  lemma ScanOnce()
    ensures Scan(map[1 := ONCE_TASK], [1], 1_000_000_000) == Gathered(map[1 := AGAIN_TASK], [1], [1], None)
  {
    var tasks := map[1 := ONCE_TASK];
    assert [1][..0] == [];
    var empty := Gathered(tasks, [], [], None);
    assert Scan(tasks, [], 1_000_000_000) == empty;
    assert Scan(tasks, [1], 1_000_000_000) == Visit(empty, 1, 1_000_000_000);
    hide Scan;
    assert tasks[1 := AGAIN_TASK] == map[1 := AGAIN_TASK];
    assert [] + [1] == [1];
  }

  lemma CollectOnce()
    ensures Enabled(ONCE_DUE, Collect([1])) && Step(ONCE_DUE, Collect([1])) == ONCE_TAKEN
  {
    ScanOnce();
    hide Scan, Visit;
    assert 1 in ONCE_DUE.tasks;
    assert ONCE_DUE.tasks.Keys == {1} && Enumerates([1], {1});
  }

  lemma AddOnce()
    ensures Step(START, Stamp(1_000_000_000, true)) == ONCE_STAMPED
    ensures Enabled(ONCE_STAMPED, Emplace(1)) && Step(ONCE_STAMPED, Emplace(1)) == ONCE_ADDED
    ensures Enabled(ONCE_ADDED, Notify) && Step(ONCE_ADDED, Notify) == ONCE_TOLD
    ensures Step(ONCE_TOLD, Tick(1_000_000_000)) == ONCE_DUE
  {
    hide Scan, Erased;
  }

  lemma AddAgain()
    ensures Step(ONCE_TAKEN, Stamp(1_000_000_000, true)) == AGAIN_STAMPED
    ensures Enabled(AGAIN_STAMPED, Emplace(2)) && Step(AGAIN_STAMPED, Emplace(2)) == AGAIN_ADDED
    ensures Enabled(AGAIN_ADDED, Notify) && Step(AGAIN_ADDED, Notify) == AGAIN_TOLD
  {
    hide Scan, Erased;
    assert map[1 := ONCE][2 := AGAIN] == map[1 := ONCE, 2 := AGAIN];
    assert map[1 := AGAIN_TASK][2 := AGAIN_TASK] == map[1 := AGAIN_TASK, 2 := AGAIN_TASK];
  }

  lemma RunOnce()
    ensures Enabled(AGAIN_TOLD, RunCallback) && Step(AGAIN_TOLD, RunCallback) == ONCE_RAN
  {
    assert [1][1..] == [] && Fired(AGAIN_TOLD, 1) + [1_000_000_000] == [1_000_000_000];
    hide Scan, Erased;
  }

  lemma EndOnce()
    ensures Enabled(ONCE_RAN, EndPass) && Step(ONCE_RAN, EndPass) == STRANDED
  {
    assert Erased(ONCE_RAN.tasks, [1]) == map[2 := AGAIN_TASK];
    hide Scan, Erased;
  }

  /** The task is due a second later and nothing is going to wake the thread. */
  lemma ReaddedExample()
    ensures Runs(START, Readded()) && Exec(START, Readded()) == STRANDED
    ensures STRANDED.thread == Waiting(None, false) && STRANDED.owed == 0 && STRANDED.tasks[2].due == 2_000_000_000
  {
    hide Step, Enabled, Scan, Runs, Exec;
    AddOnce();
    CollectOnce();
    AddAgain();
    RunOnce();
    EndOnce();
    EnabledClock(START, 1_000_000_000, true);
    EnabledClock(ONCE_TAKEN, 1_000_000_000, true);
    EnabledClock(ONCE_TOLD, 1_000_000_000, true);
    ExecNothing(STRANDED);
    Prepend(ONCE_RAN, EndPass, [], STRANDED, STRANDED);
    var p9 := [EndPass] + [];
    Prepend(AGAIN_TOLD, RunCallback, p9, ONCE_RAN, STRANDED);
    var p8 := [RunCallback] + p9;
    Prepend(AGAIN_ADDED, Notify, p8, AGAIN_TOLD, STRANDED);
    var p7 := [Notify] + p8;
    Prepend(AGAIN_STAMPED, Emplace(2), p7, AGAIN_ADDED, STRANDED);
    var p6 := [Emplace(2)] + p7;
    Prepend(ONCE_TAKEN, Stamp(1_000_000_000, true), p6, AGAIN_STAMPED, STRANDED);
    var p5 := [Stamp(1_000_000_000, true)] + p6;
    Prepend(ONCE_DUE, Collect([1]), p5, ONCE_TAKEN, STRANDED);
    var p4 := [Collect([1])] + p5;
    Prepend(ONCE_TOLD, Tick(1_000_000_000), p4, ONCE_DUE, STRANDED);
    var p3 := [Tick(1_000_000_000)] + p4;
    Prepend(ONCE_ADDED, Notify, p3, ONCE_TOLD, STRANDED);
    var p2 := [Notify] + p3;
    Prepend(ONCE_STAMPED, Emplace(1), p2, ONCE_ADDED, STRANDED);
    var p1 := [Emplace(1)] + p2;
    Prepend(START, Stamp(1_000_000_000, true), p1, ONCE_STAMPED, STRANDED);
    assert Readded() == [Stamp(1_000_000_000, true)] + p1;
  }
}
