/** The timeout handler's table over every run: which entries it keeps, and that it
    keeps some for good. */
module RpcEntries {
  import opened Sequences
  import opened Rpc
  import opened RpcRuns

  // ----------------------------------------------------------- what a step does

  /** Only Arm enters a request in the table and only CancelEntry takes it out. */
  lemma EntryStep(s: State, a: Action, r: nat)
    requires Enabled(s, a)
    ensures r in Step(s, a).timeouts <==> (r in s.timeouts && a != CancelEntry(r)) || a == Arm(r)
  {
  }

  /** The call's CancelEntry has been performed. */
  predicate Past(s: State, r: nat) {
    (r in s.finishing && !s.finishing[r].stage.Erased?) || HasCompleted(s, r)
  }

  lemma ClaimedIsNotPast(s: State, t: State, r: nat, q: nat, kind: Kind, reply: Option<Reply>)
    requires PhasesOk(s) && t.calls == s.calls && t.finishing == s.finishing && t.completed == s.completed
    ensures Past(Claim(t, q, kind, reply), r) <==> Past(s, r)
  {
    CompletedUnchanged(s, Claim(t, q, kind, reply));
    hide HasCompleted;
  }

  lemma SamePast(s: State, t: State, r: nat)
    requires t.finishing == s.finishing && t.completed == s.completed
    ensures Past(t, r) <==> Past(s, r)
  {
    CompletedUnchanged(s, t);
    hide HasCompleted;
  }

  lemma CompletedPast(s: State, r: nat, q: nat)
    requires Inv(s) && Enabled(s, RunCallback(q))
    ensures Past(Step(s, RunCallback(q)), r) <==> Past(s, r)
  {
    var t := Step(s, RunCallback(q));
    hide Inv;
    if HasCompleted(s, r) {
      var i :| 0 <= i < |s.completed| && s.completed[i].request == r;
      assert t.completed[i].request == r;
    }
    assert t.completed[|s.completed|].request == q;
  }

  lemma FinishingPast(s: State, a: Action, r: nat)
    requires Inv(s) && Enabled(s, a) && (a.CancelEntry? || a.RemoveTask?)
    ensures Past(Step(s, a), r) <==> Past(s, r) || a == CancelEntry(r)
  {
    CompletedUnchanged(s, Step(s, a));
    hide HasCompleted, SlotsOk, TasksOk, TimeoutsOk, RepliesOk;
  }

  lemma ClaimingPast(s: State, a: Action, r: nat)
    requires Inv(s) && Enabled(s, a) && (a.RunSlot? || a.RunTimeout?)
    ensures Past(Step(s, a), r) <==> Past(s, r)
  {
    hide HasCompleted, Past, Claim, PhasesOk, SlotsOk, TasksOk, TimeoutsOk, RepliesOk;
    if a.RunTimeout? {
      ClaimedIsNotPast(s, s.(collected := s.collected - {a.t}), r, s.owner[a.t], Timeout, None);
    } else {
      var e := s.emission.value;
      var key := SlotKey(e.reply.messageType, a.id);
      var t := s.(emission := Some(e.(todo := e.todo - {a.id})));
      SamePast(s, t, r);
      if key in s.slots {
        ClaimedIsNotPast(s, t, r, s.slots[key].request, s.slots[key].kind, Some(e.reply));
      }
    }
  }

  lemma OtherPast(s: State, a: Action, r: nat)
    requires Enabled(s, a)
    requires !a.RunSlot? && !a.RunTimeout? && !a.CancelEntry? && !a.RemoveTask? && !a.RunCallback?
    ensures Past(Step(s, a), r) <==> Past(s, r)
  {
    hide Past;
    SamePast(s, Step(s, a), r);
  }

  lemma PastStep(s: State, a: Action, r: nat)
    requires Inv(s) && Enabled(s, a)
    ensures Past(Step(s, a), r) <==> Past(s, r) || a == CancelEntry(r)
  {
    hide Inv, Past, Step, Enabled;
    if a.RunCallback? { CompletedPast(s, r, a.r); }
    else if a.CancelEntry? || a.RemoveTask? { FinishingPast(s, a, r); }
    else if a.RunSlot? || a.RunTimeout? { ClaimingPast(s, a, r); }
    else { OtherPast(s, a, r); }
  }

  // ------------------------------------------------------------------- over runs

  lemma Splits(actions: seq<Action>, a: Action)
    requires actions != []
    ensures a in actions <==> actions[0] == a || a in actions[1..]
  {
    assert actions == [actions[0]] + actions[1..];
  }

  lemma {:induction false} PastIff(s: State, actions: seq<Action>, r: nat)
    requires Inv(s) && Runs(s, actions)
    ensures Past(Exec(s, actions), r) <==> Past(s, r) || CancelEntry(r) in actions
    decreases |actions|
  {
    hide Inv, Past, Step, Enabled;
    if actions != [] {
      PastStep(s, actions[0], r);
      StepKeeps(s, actions[0]);
      PastIff(Step(s, actions[0]), actions[1..], r);
      Splits(actions, CancelEntry(r));
    }
  }

  lemma PastIsNotCancelled(s: State, r: nat)
    requires Inv(s) && Past(s, r)
    ensures !Enabled(s, CancelEntry(r))
  {
    hide SlotsOk, TasksOk, TimeoutsOk, RepliesOk, HasCompleted;
  }

  /** A call is cancelled once at most. */
  lemma {:induction false} CancelledOnce(s: State, actions: seq<Action>, r: nat)
    requires Inv(s) && Runs(s, actions) && Past(s, r)
    ensures CancelEntry(r) !in actions
    decreases |actions|
  {
    hide Inv, Past, Step, Enabled;
    if actions != [] {
      PastIsNotCancelled(s, r);
      PastStep(s, actions[0], r);
      StepKeeps(s, actions[0]);
      CancelledOnce(Step(s, actions[0]), actions[1..], r);
      Splits(actions, CancelEntry(r));
    }
  }

  /** After the i-th action, a CancelEntry, there is no other of that call. */
  lemma {:induction false} NoneAfter(s: State, actions: seq<Action>, i: nat, r: nat)
    requires Inv(s) && Runs(s, actions) && i < |actions| && actions[i] == CancelEntry(r)
    ensures CancelEntry(r) !in actions[i + 1..]
    decreases |actions|
  {
    hide Inv, Past, Step, Enabled;
    StepKeeps(s, actions[0]);
    if i == 0 {
      PastStep(s, actions[0], r);
      CancelledOnce(Step(s, actions[0]), actions[1..], r);
    } else {
      NoneAfter(Step(s, actions[0]), actions[1..], i - 1, r);
      assert actions[1..][i..] == actions[i + 1..];
    }
  }

  /** The call is armed by the j-th action and not cancelled later. */
  predicate ArmedLast(actions: seq<Action>, j: nat, r: nat) {
    j < |actions| && actions[j] == Arm(r) && CancelEntry(r) !in actions[j + 1..]
  }

  lemma ArmedShifts(actions: seq<Action>, j: nat, r: nat)
    requires actions != []
    ensures ArmedLast(actions[1..], j, r) <==> ArmedLast(actions, j + 1, r)
  {
    if j + 1 < |actions| { assert actions[1..][j + 1..] == actions[j + 2..]; }
  }

  lemma ArmedSplits(actions: seq<Action>, r: nat)
    requires actions != []
    ensures (exists j: nat :: ArmedLast(actions, j, r)) <==>
            (actions[0] == Arm(r) && CancelEntry(r) !in actions[1..]) || exists j: nat :: ArmedLast(actions[1..], j, r)
  {
    assert ArmedLast(actions, 0, r) <==> actions[0] == Arm(r) && CancelEntry(r) !in actions[1..];
    hide ArmedLast;
    if j: nat :| ArmedLast(actions, j, r) {
      if j > 0 { ArmedShifts(actions, j - 1, r); }
    }
    if j: nat :| ArmedLast(actions[1..], j, r) {
      ArmedShifts(actions, j, r);
      assert ArmedLast(actions, j + 1, r);
    }
  }

  lemma {:induction false} EntryIff(s: State, actions: seq<Action>, r: nat)
    requires Runs(s, actions)
    ensures r in Exec(s, actions).timeouts <==>
            (r in s.timeouts && CancelEntry(r) !in actions) || exists j: nat :: ArmedLast(actions, j, r)
    decreases |actions|
  {
    hide Step, Enabled, ArmedLast;
    if actions != [] {
      EntryStep(s, actions[0], r);
      EntryIff(Step(s, actions[0]), actions[1..], r);
      ArmedSplits(actions, r);
      Splits(actions, CancelEntry(r));
    } else {
      assert forall j: nat :: !ArmedLast(actions, j, r) by { NothingArmed(r); }
    }
  }

  lemma NothingArmed(r: nat)
    ensures forall j: nat :: !ArmedLast([], j, r)
  {
  }

  // -------------------------------------------------------------------- theorems

  /** The j-th action arms a call that the i-th has cancelled before. */
  predicate ArmedTooLate(actions: seq<Action>, i: nat, j: nat, r: nat) {
    i < j < |actions| && actions[i] == CancelEntry(r) && actions[j] == Arm(r)
  }

  /** Not a property of the code: that the timeout handler forgets completed calls.
      In every run, exactly when it keeps the entry of a completed call: when the
      call's timeout was cancelled before it was armed, because a reply or the
      timeout itself came in between adding the task and recording it. */
  lemma StaleEntryIff(actions: seq<Action>, r: nat)
    requires Runs(START, actions) && HasCompleted(Exec(START, actions), r)
    ensures r in Exec(START, actions).timeouts <==> exists i: nat, j: nat :: ArmedTooLate(actions, i, j, r)
  {
    StartOk();
    assert !Past(START, r) && r !in START.timeouts;
    PastIff(START, actions, r);
    EntryIff(START, actions, r);
    assert Past(Exec(START, actions), r);
    hide Exec, Runs, Inv, HasCompleted, Past;
    if j: nat :| ArmedLast(actions, j, r) {
      LastAfterCancel(actions, j, r);
    }
    if i: nat, j: nat :| ArmedTooLate(actions, i, j, r) {
      NoneAfter(START, actions, i, r);
      CancelledBefore(actions, i, j, r);
    }
  }

  lemma InTail(actions: seq<Action>, j: nat, i: nat)
    ensures j < i < |actions| ==> actions[i] in actions[j + 1..]
  {
    if j < i < |actions| { assert actions[j + 1..][i - j - 1] == actions[i]; }
  }

  lemma LastAfterCancel(actions: seq<Action>, j: nat, r: nat)
    requires CancelEntry(r) in actions && ArmedLast(actions, j, r)
    ensures exists i: nat :: ArmedTooLate(actions, i, j, r)
  {
    var i :| 0 <= i < |actions| && actions[i] == CancelEntry(r);
    InTail(actions, j, i);
    assert ArmedTooLate(actions, i, j, r);
  }

  lemma CancelledBefore(actions: seq<Action>, i: nat, j: nat, r: nat)
    requires ArmedTooLate(actions, i, j, r) && CancelEntry(r) !in actions[i + 1..]
    ensures ArmedLast(actions, j, r)
  {
    assert actions[j + 1..] == actions[i + 1..][j - i..];
  }

  /** An entry that has outlived its call stays for good. */
  lemma {:induction false} StaleEntryStays(s: State, actions: seq<Action>, r: nat)
    requires Inv(s) && Runs(s, actions) && Past(s, r) && r in s.timeouts
    ensures r in Exec(s, actions).timeouts
  {
    CancelledOnce(s, actions, r);
    EntryIff(s, actions, r);
  }

  // -------------------------------------------------------------------- an example

  /** The timeout fires and completes the call before it has been recorded. */
  function Leaking(): seq<Action> {
    [Prepare(5, 7, true), SubscribeSuccess(1), SubscribeError(1), Register(1), AddTask(1), Collect(1), RunTimeout(1),
     CancelEntry(1), RemoveTask(1), RunCallback(1), Arm(1)]
  }

  const REPLY := SlotKey(7, 0)
  const FAILURE := SlotKey(ERROR_TYPE, 0)
  const PREPARED := START.(nextRequest := 2, issued := map[1 := Request(5, 7, true)], calling := map[1 := Prepared])
  const HALF := PREPARED.(counters := map[7 := 1], slots := map[REPLY := Slot(1, 5, Success)], calling := map[1 := OneSlot(REPLY)])
  const BOTH := HALF.(counters := map[7 := 1, ERROR_TYPE := 1],
                      slots := map[REPLY := Slot(1, 5, Success), FAILURE := Slot(1, 5, Error)],
                      calling := map[1 := TwoSlots(Pending(REPLY, FAILURE))])
  const PENDING := BOTH.(calls := map[1 := Pending(REPLY, FAILURE)], calling := map[1 := Registered])
  const ADDED := PENDING.(tasks := {1}, owner := map[1 := 1], nextTask := 2, calling := map[1 := Scheduled(1)])
  const TAKEN := ADDED.(collected := {1}, deleted := {1})
  const CLAIMED := TAKEN.(collected := {}, calls := map[], slots := map[], finishing := map[1 := Winner(Timeout, None, Erased)])
  const CANCELLED := CLAIMED.(finishing := map[1 := Winner(Timeout, None, Cancelled(None))])
  const REMOVED := CLAIMED.(finishing := map[1 := Winner(Timeout, None, Ready)])
  const COMPLETED := CLAIMED.(finishing := map[], completed := [Completion(1, Timeout, None)])
  const LEAKED := COMPLETED.(timeouts := map[1 := 1], calling := map[1 := Armed])

  predicate Leads(s: State, a: Action, t: State) {
    Enabled(s, a) && Step(s, a) == t
  }

  lemma LeakPrepares()
    ensures Leads(START, Prepare(5, 7, true), PREPARED) && Leads(PREPARED, SubscribeSuccess(1), HALF)
  {
  }

  lemma LeakSubscribes()
    ensures Leads(HALF, SubscribeError(1), BOTH)
  {
    assert map[7 := 1][ERROR_TYPE := 1] == map[7 := 1, ERROR_TYPE := 1];
    assert HALF.slots[FAILURE := Slot(1, 5, Error)] == BOTH.slots;
  }

  lemma LeakRegisters()
    ensures Leads(BOTH, Register(1), PENDING)
  {
  }

  lemma LeakAdds()
    ensures Leads(PENDING, AddTask(1), ADDED)
  {
  }

  lemma LeakCollects()
    ensures Leads(ADDED, Collect(1), TAKEN)
  {
  }

  lemma LeakTimesOut()
    ensures Leads(TAKEN, RunTimeout(1), CLAIMED)
  {
    assert TAKEN.slots - {REPLY, FAILURE} == map[];
    assert TAKEN.calls - {1} == map[];
    assert {1} - {1} == {};
  }

  lemma LeakCancels()
    ensures Leads(CLAIMED, CancelEntry(1), CANCELLED)
  {
    assert CLAIMED.timeouts - {1} == map[];
    assert CLAIMED.finishing[1 := Winner(Timeout, None, Cancelled(None))] == CANCELLED.finishing;
  }

  lemma LeakRemoves()
    ensures Leads(CANCELLED, RemoveTask(1), REMOVED)
  {
    assert CANCELLED.finishing[1 := Winner(Timeout, None, Ready)] == REMOVED.finishing;
  }

  lemma LeakCompletes()
    ensures Leads(REMOVED, RunCallback(1), COMPLETED)
  {
    assert REMOVED.finishing - {1} == map[];
    assert [] + [Completion(1, Timeout, None)] == [Completion(1, Timeout, None)];
  }

  lemma LeakArms()
    ensures Leads(COMPLETED, Arm(1), LEAKED)
  {
  }

  lemma Prepend(s: State, a: Action, rest: seq<Action>, t: State, z: State)
    requires Leads(s, a, t) && Runs(t, rest) && Exec(t, rest) == z
    ensures Runs(s, [a] + rest) && Exec(s, [a] + rest) == z
  {
    hide Step, Enabled;
    assert ([a] + rest)[1..] == rest;
  }

  /** The call has completed, nothing of it is left, and its entry stays. */
  lemma LeakExample()
    ensures Runs(START, Leaking()) && Exec(START, Leaking()) == LEAKED
    ensures LEAKED.calls == map[] && LEAKED.finishing == map[] && LEAKED.completed == [Completion(1, Timeout, None)]
    ensures LEAKED.timeouts == map[1 := 1]
  {
    hide Leads, Runs, Exec;
    LeakPrepares();
    LeakSubscribes();
    LeakRegisters();
    LeakAdds();
    LeakCollects();
    LeakTimesOut();
    LeakCancels();
    LeakRemoves();
    LeakCompletes();
    LeakArms();
    ExecNothing(LEAKED);
    Prepend(COMPLETED, Arm(1), [], LEAKED, LEAKED);
    var p10 := [Arm(1)] + [];
    Prepend(REMOVED, RunCallback(1), p10, COMPLETED, LEAKED);
    var p9 := [RunCallback(1)] + p10;
    Prepend(CANCELLED, RemoveTask(1), p9, REMOVED, LEAKED);
    var p8 := [RemoveTask(1)] + p9;
    Prepend(CLAIMED, CancelEntry(1), p8, CANCELLED, LEAKED);
    var p7 := [CancelEntry(1)] + p8;
    Prepend(TAKEN, RunTimeout(1), p7, CLAIMED, LEAKED);
    var p6 := [RunTimeout(1)] + p7;
    Prepend(ADDED, Collect(1), p6, TAKEN, LEAKED);
    var p5 := [Collect(1)] + p6;
    Prepend(PENDING, AddTask(1), p5, ADDED, LEAKED);
    var p4 := [AddTask(1)] + p5;
    Prepend(BOTH, Register(1), p4, PENDING, LEAKED);
    var p3 := [Register(1)] + p4;
    Prepend(HALF, SubscribeError(1), p3, BOTH, LEAKED);
    var p2 := [SubscribeError(1)] + p3;
    Prepend(PREPARED, SubscribeSuccess(1), p2, HALF, LEAKED);
    var p1 := [SubscribeSuccess(1)] + p2;
    Prepend(START, Prepare(5, 7, true), p1, PREPARED, LEAKED);
    assert Leaking() == [Prepare(5, 7, true)] + p1;
  }
}
