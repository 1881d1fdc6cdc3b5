/** What every step of the completion protocol keeps, and what that means for
    calls over every interleaving. */
module RpcRuns {
  import opened Sequences
  import opened Rpc

  // ------------------------------------------------------------------ claiming

  lemma ClaimPhases(s: State, r: nat, kind: Kind, reply: Option<Reply>)
    requires PhasesOk(s)
    ensures PhasesOk(Claim(s, r, kind, reply))
  {
    var t := Claim(s, r, kind, reply);
    assert forall q :: HasCompleted(t, q) <==> HasCompleted(s, q);
    hide HasCompleted;
  }

  /** Both slots of the claimed call go, and no slot of another call. */
  lemma ClaimSlots(s: State, r: nat, kind: Kind, reply: Option<Reply>)
    requires SlotsOk(s) && PhasesOk(s)
    ensures SlotsOk(Claim(s, r, kind, reply))
  {
    if r in s.calls {
      var t := Claim(s, r, kind, reply);
      forall q, key | OwnsSuccess(t, q, key) ensures HoldsSuccess(t, q, key) {
        ClaimLeavesOthers(s, r, kind, reply, q, key);
      }
      forall q, key | OwnsError(t, q, key) ensures HoldsError(t, q, key) {
        ClaimLeavesOthers(s, r, kind, reply, q, key);
      }
      forall key | key in t.slots ensures key.id < Counter(t, key.messageType)
        && (OwnsSuccess(t, t.slots[key].request, key) || OwnsError(t, t.slots[key].request, key)) {
        ClaimLeavesSlot(s, r, kind, reply, key);
      }
    }
  }

  lemma ClaimLeavesOthers(s: State, r: nat, kind: Kind, reply: Option<Reply>, q: nat, key: SlotKey)
    requires SlotsOk(s) && PhasesOk(s) && r in s.calls
    ensures var t := Claim(s, r, kind, reply);
      && (OwnsSuccess(t, q, key) ==> HoldsSuccess(t, q, key))
      && (OwnsError(t, q, key) ==> HoldsError(t, q, key))
  {
    var t := Claim(s, r, kind, reply);
    assert OwnsSuccess(s, r, s.calls[r].success) && OwnsError(s, r, s.calls[r].error);
    assert OwnsSuccess(t, q, key) ==> OwnsSuccess(s, q, key);
    assert OwnsError(t, q, key) ==> OwnsError(s, q, key);
  }

  lemma ClaimLeavesSlot(s: State, r: nat, kind: Kind, reply: Option<Reply>, key: SlotKey)
    requires SlotsOk(s) && PhasesOk(s) && r in s.calls && key in Claim(s, r, kind, reply).slots
    ensures var t := Claim(s, r, kind, reply);
      && key.id < Counter(t, key.messageType)
      && (OwnsSuccess(t, t.slots[key].request, key) || OwnsError(t, t.slots[key].request, key))
  {
    hide HoldsSuccess, HoldsError, HasCompleted;
  }

  lemma ClaimTasks(s: State, r: nat, kind: Kind, reply: Option<Reply>)
    requires TasksOk(s)
    ensures TasksOk(Claim(s, r, kind, reply))
  {
  }

  lemma ClaimReplies(s: State, r: nat, kind: Kind, reply: Option<Reply>)
    requires RepliesOk(s) && Justified(s, r, kind, reply)
    ensures RepliesOk(Claim(s, r, kind, reply))
  {
  }

  lemma ClaimTimeouts(s: State, r: nat, kind: Kind, reply: Option<Reply>)
    requires TimeoutsOk(s)
    ensures TimeoutsOk(Claim(s, r, kind, reply))
  {
  }

  // -------------------------------------------- steps that carry the invariant

  lemma CompletedUnchanged(s: State, t: State)
    requires t.completed == s.completed
    ensures forall r :: HasCompleted(t, r) <==> HasCompleted(s, r)
  {
  }

  /** Steps that make no call pending, claimed or completed. */
  lemma PhasesCarried(s: State, t: State)
    requires PhasesOk(s)
    requires t.issued == s.issued && t.nextRequest == s.nextRequest
    requires t.calls == s.calls && t.finishing.Keys == s.finishing.Keys && t.completed == s.completed
    requires t.calling.Keys <= s.calling.Keys
    requires forall r | Early(t, r) :: Early(s, r)
    ensures PhasesOk(t)
  {
    CompletedUnchanged(s, t);
    hide HasCompleted;
  }

  /** Steps that touch neither slots nor their owners. */
  lemma SlotsCarried(s: State, t: State)
    requires SlotsOk(s)
    requires t.slots == s.slots && t.counters == s.counters
    requires forall r | r in s.issued :: r in t.issued && t.issued[r] == s.issued[r]
    requires forall r, key :: OwnsSuccess(t, r, key) <==> OwnsSuccess(s, r, key)
    requires forall r, key :: OwnsError(t, r, key) <==> OwnsError(s, r, key)
    ensures SlotsOk(t)
  {
    hide OwnsSuccess, OwnsError;
  }

  /** Steps after which every timeout a pending call relies on still ticks. */
  lemma TimeoutsCarried(s: State, t: State)
    requires TimeoutsOk(s)
    requires forall r | r in t.calls :: r in s.calls && (IsArmed(t, r) ==> IsArmed(s, r))
    requires forall r | r in t.calls && r in s.timeouts :: r in t.timeouts && t.timeouts[r] == s.timeouts[r]
    requires forall r | r in t.calls && r in t.calling && t.calling[r].Scheduled? :: r in s.calling && s.calling[r] == t.calling[r]
    requires forall r, x | r in t.calls && Ticking(s, x) && (OwnTask(s, r, x)) :: Ticking(t, x)
    requires TasksOk(s)
    ensures TimeoutsOk(t)
  {
    hide IsArmed, Ticking;
  }

  // ------------------------------------------------ running a slot or a timeout

  function SlotTaken(s: State, id: nat): State
    requires Enabled(s, RunSlot(id))
  {
    s.(emission := Some(s.emission.value.(todo := s.emission.value.todo - {id})))
  }

  predicate SameButEmission(s: State, t: State) {
    t == s.(emission := t.emission)
  }

  lemma EmissionIrrelevant(s: State, t: State)
    requires Inv(s) && SameButEmission(s, t)
    ensures Inv(t)
  {
    hide PhasesOk, SlotsOk, TimeoutsOk;
    PhasesCarried(s, t);
    SlotsCarried(s, t);
    TimeoutsCarried(s, t);
  }

  /** A slot that matches the reply's connection and request has the type of the
      emitted signal, so the reply is one its call waits for. */
  lemma SlotIsJustified(s: State, key: SlotKey, reply: Reply)
    requires SlotsOk(s) && key in s.slots
    requires key.messageType == reply.messageType
    requires s.slots[key].connection == reply.connection && s.slots[key].request == reply.request
    ensures Justified(s, s.slots[key].request, s.slots[key].kind, Some(reply))
  {
    var r := s.slots[key].request;
    assert OwnsSuccess(s, r, key) ==> HoldsSuccess(s, r, key);
    assert OwnsError(s, r, key) ==> HoldsError(s, r, key);
    hide OwnsSuccess, OwnsError;
  }

  lemma ClaimKeeps(s: State, r: nat, kind: Kind, reply: Option<Reply>)
    requires Inv(s) && Justified(s, r, kind, reply)
    ensures Inv(Claim(s, r, kind, reply))
  {
    hide PhasesOk, SlotsOk, TasksOk, TimeoutsOk, RepliesOk, Claim;
    ClaimPhases(s, r, kind, reply);
    ClaimSlots(s, r, kind, reply);
    ClaimTasks(s, r, kind, reply);
    ClaimTimeouts(s, r, kind, reply);
    ClaimReplies(s, r, kind, reply);
  }

  lemma RunSlotKeeps(s: State, id: nat)
    requires Inv(s) && Enabled(s, RunSlot(id))
    ensures Inv(Step(s, RunSlot(id)))
  {
    var u, reply := SlotTaken(s, id), s.emission.value.reply;
    var key := SlotKey(reply.messageType, id);
    EmissionIrrelevant(s, u);
    hide PhasesOk, SlotsOk, TasksOk, TimeoutsOk, RepliesOk, Claim, Justified;
    if key in u.slots && u.slots[key].connection == reply.connection && u.slots[key].request == reply.request {
      SlotIsJustified(u, key, reply);
      ClaimKeeps(u, u.slots[key].request, u.slots[key].kind, Some(reply));
    }
  }

  /** When a collected timeout runs its call stops being pending, so the task
      that ticked for it is needed no more. */
  lemma RunTimeoutKeeps(s: State, t: nat)
    requires Inv(s) && Enabled(s, RunTimeout(t))
    ensures Inv(Step(s, RunTimeout(t)))
  {
    var r := s.owner[t];
    var c := Claim(s, r, Timeout, None);
    assert Inv(c) by {
      assert r in s.calls ==> r in s.issued;
      if r in s.calls { ClaimKeeps(s, r, Timeout, None); }
    }
    var u := Step(s, RunTimeout(t));
    assert u == c.(collected := c.collected - {t});
    TimeoutRan(c, r, t);
  }

  lemma TimeoutRan(c: State, r: nat, t: nat)
    requires Inv(c) && r !in c.calls && OwnTask(c, r, t)
    ensures Inv(c.(collected := c.collected - {t}))
  {
    hide PhasesOk, SlotsOk, TimeoutsOk;
    var u := c.(collected := c.collected - {t});
    PhasesCarried(c, u);
    SlotsCarried(c, u);
    TimeoutsCarried(c, u);
  }

  // ------------------------------------------------------------- the other steps

  /** Steps of Call before the call is registered. */
  predicate EarlyStep(a: Action) {
    a.Prepare? || a.SubscribeSuccess? || a.SubscribeError?
  }

  /** Steps of Call from the registration on. */
  predicate LateStep(a: Action) {
    a.Register? || a.AddTask? || a.Arm? || a.Send?
  }

  /** Steps of the emission and of the scheduler that claim nothing. */
  predicate ServiceStep(a: Action) {
    a.Deliver? || a.EndEmission? || a.Collect? || a.EraseTask?
  }

  /** Steps that cancel the timeout of a claimed call. */
  predicate CancelStep(a: Action) {
    a.CancelEntry? || a.RemoveTask?
  }

  lemma PreparePhases(s: State, connection: nat, responseType: nat, timed: bool)
    requires Inv(s) && Enabled(s, Prepare(connection, responseType, timed))
    ensures PhasesOk(Step(s, Prepare(connection, responseType, timed)))
  {
    CompletedUnchanged(s, Step(s, Prepare(connection, responseType, timed)));
    hide HasCompleted, SlotsOk, TasksOk, TimeoutsOk, RepliesOk;
  }

  lemma RegisterPhases(s: State, r: nat)
    requires Inv(s) && Enabled(s, Register(r))
    ensures PhasesOk(Step(s, Register(r)))
  {
    CompletedUnchanged(s, Step(s, Register(r)));
    hide HasCompleted, SlotsOk, TasksOk, TimeoutsOk, RepliesOk;
    assert Early(s, r);
  }

  lemma OtherPhases(s: State, a: Action)
    requires Inv(s) && Enabled(s, a)
    requires a.SubscribeSuccess? || a.SubscribeError? || a.AddTask? || a.Arm? || a.Send? || ServiceStep(a) || CancelStep(a)
    ensures PhasesOk(Step(s, a))
  {
    hide PhasesOk, SlotsOk, TasksOk, TimeoutsOk, RepliesOk;
    PhasesCarried(s, Step(s, a));
  }

  lemma EarlyTasks(s: State, a: Action)
    requires Inv(s) && Enabled(s, a) && EarlyStep(a)
    ensures TasksOk(Step(s, a))
  {
    hide PhasesOk, SlotsOk, TimeoutsOk, RepliesOk;
    match a
    case Prepare(_, _, _) =>
    case SubscribeSuccess(r) =>
    case SubscribeError(r) =>
  }

  lemma LateTasks(s: State, a: Action)
    requires Inv(s) && Enabled(s, a) && LateStep(a)
    ensures TasksOk(Step(s, a))
  {
    hide PhasesOk, SlotsOk, TimeoutsOk, RepliesOk;
    match a
    case Register(r) =>
    case AddTask(r) =>
    case Arm(r) =>
    case Send(r) =>
  }

  lemma ServiceTasks(s: State, a: Action)
    requires Inv(s) && Enabled(s, a) && ServiceStep(a)
    ensures TasksOk(Step(s, a))
  {
    hide PhasesOk, SlotsOk, TimeoutsOk, RepliesOk;
    match a
    case Deliver(_) =>
    case EndEmission =>
    case Collect(_) =>
    case EraseTask(_) =>
  }

  lemma CancelTasks(s: State, a: Action)
    requires Inv(s) && Enabled(s, a) && CancelStep(a)
    ensures TasksOk(Step(s, a))
  {
    hide PhasesOk, SlotsOk, TimeoutsOk, RepliesOk;
    match a
    case CancelEntry(r) =>
    case RemoveTask(r) =>
  }

  lemma EarlyTimeouts(s: State, a: Action)
    requires Inv(s) && Enabled(s, a) && EarlyStep(a)
    ensures TimeoutsOk(Step(s, a))
  {
    hide SlotsOk, RepliesOk, HasCompleted, TimeoutsOk;
    TimeoutsCarried(s, Step(s, a));
  }

  lemma RegisterTimeouts(s: State, r: nat)
    requires Inv(s) && Enabled(s, Register(r))
    ensures TimeoutsOk(Step(s, Register(r)))
  {
    hide SlotsOk, RepliesOk, HasCompleted, PhasesOk, TasksOk;
  }

  lemma ArmingTimeouts(s: State, a: Action)
    requires Inv(s) && Enabled(s, a) && (a.AddTask? || a.Arm?)
    ensures TimeoutsOk(Step(s, a))
  {
    hide SlotsOk, RepliesOk, HasCompleted, PhasesOk;
  }

  lemma OtherTimeouts(s: State, a: Action)
    requires Inv(s) && Enabled(s, a) && (a.Send? || ServiceStep(a))
    ensures TimeoutsOk(Step(s, a))
  {
    hide SlotsOk, RepliesOk, PhasesOk, TimeoutsOk;
    TimeoutsCarried(s, Step(s, a));
  }

  /** Only the claimed call's own entry and task go. */
  lemma CancelTimeouts(s: State, a: Action)
    requires Inv(s) && Enabled(s, a) && CancelStep(a)
    ensures TimeoutsOk(Step(s, a))
  {
    hide SlotsOk, RepliesOk, HasCompleted, TimeoutsOk;
    TimeoutsCarried(s, Step(s, a));
  }

  lemma EarlyReplies(s: State, a: Action)
    requires Inv(s) && Enabled(s, a) && EarlyStep(a)
    ensures RepliesOk(Step(s, a))
  {
    hide SlotsOk, TasksOk, TimeoutsOk, HasCompleted;
    match a
    case Prepare(_, _, _) =>
    case SubscribeSuccess(r) =>
    case SubscribeError(r) =>
  }

  lemma LateReplies(s: State, a: Action)
    requires Inv(s) && Enabled(s, a) && LateStep(a)
    ensures RepliesOk(Step(s, a))
  {
    hide SlotsOk, TasksOk, TimeoutsOk, HasCompleted;
    match a
    case Register(r) =>
    case AddTask(r) =>
    case Arm(r) =>
    case Send(r) =>
  }

  lemma ServiceReplies(s: State, a: Action)
    requires Inv(s) && Enabled(s, a) && ServiceStep(a)
    ensures RepliesOk(Step(s, a))
  {
    hide SlotsOk, TasksOk, TimeoutsOk, HasCompleted;
    match a
    case Deliver(_) =>
    case EndEmission =>
    case Collect(_) =>
    case EraseTask(_) =>
  }

  lemma CancelReplies(s: State, a: Action)
    requires Inv(s) && Enabled(s, a) && CancelStep(a)
    ensures RepliesOk(Step(s, a))
  {
    hide SlotsOk, TasksOk, TimeoutsOk, HasCompleted;
    match a
    case CancelEntry(r) =>
    case RemoveTask(r) =>
  }

  /** A new slot does not disturb the others: its key is new. */
  lemma SlotAdded(s: State, t: State, r: nat, messageType: nat, slot: Slot)
    requires SlotsOk(s) && slot.request == r && r in s.issued && slot.connection == s.issued[r].connection
    requires t.slots == s.slots[NewKey(s, messageType) := slot]
    requires t.counters == s.counters[messageType := Counter(s, messageType) + 1] && t.issued == s.issued
    requires (slot.kind == Success && messageType == s.issued[r].responseType) || (slot.kind == Error && messageType == ERROR_TYPE)
    requires forall q, key :: OwnsSuccess(t, q, key) <==> OwnsSuccess(s, q, key) || (slot.kind == Success && q == r && key == NewKey(s, messageType))
    requires forall q, key :: OwnsError(t, q, key) <==> OwnsError(s, q, key) || (slot.kind == Error && q == r && key == NewKey(s, messageType))
    ensures SlotsOk(t)
  {
    hide OwnsSuccess, OwnsError;
    var key := NewKey(s, messageType);
    assert key !in s.slots;
    forall k | k in t.slots ensures k.id < Counter(t, k.messageType)
        && (OwnsSuccess(t, t.slots[k].request, k) || OwnsError(t, t.slots[k].request, k)) {
      if k != key { assert k in s.slots; }
    }
  }

  lemma SubscribeSuccessSlots(s: State, r: nat)
    requires Inv(s) && Enabled(s, SubscribeSuccess(r))
    ensures SlotsOk(Step(s, SubscribeSuccess(r)))
  {
    hide TasksOk, TimeoutsOk, RepliesOk, SlotsOk, HasCompleted;
    SlotAdded(s, Step(s, SubscribeSuccess(r)), r, s.issued[r].responseType, Slot(r, s.issued[r].connection, Success));
  }

  lemma SubscribeErrorSlots(s: State, r: nat)
    requires Inv(s) && Enabled(s, SubscribeError(r))
    ensures SlotsOk(Step(s, SubscribeError(r)))
  {
    hide TasksOk, TimeoutsOk, RepliesOk, SlotsOk, HasCompleted;
    SlotAdded(s, Step(s, SubscribeError(r)), r, ERROR_TYPE, Slot(r, s.issued[r].connection, Error));
  }

  /** Registering hands the two slots over to the pending call. */
  lemma RegisterSlots(s: State, r: nat)
    requires Inv(s) && Enabled(s, Register(r))
    ensures SlotsOk(Step(s, Register(r)))
  {
    hide TasksOk, TimeoutsOk, RepliesOk, SlotsOk, HasCompleted;
    assert Early(s, r);
    SlotsCarried(s, Step(s, Register(r)));
  }

  lemma CallSlots(s: State, a: Action)
    requires Inv(s) && Enabled(s, a) && (a.Prepare? || a.AddTask? || a.Arm? || a.Send?)
    ensures SlotsOk(Step(s, a))
  {
    hide TasksOk, TimeoutsOk, RepliesOk, SlotsOk, HasCompleted;
    SlotsCarried(s, Step(s, a));
  }

  lemma OtherSlots(s: State, a: Action)
    requires Inv(s) && Enabled(s, a) && (ServiceStep(a) || CancelStep(a))
    ensures SlotsOk(Step(s, a))
  {
    hide TasksOk, TimeoutsOk, RepliesOk, SlotsOk, PhasesOk;
    SlotsCarried(s, Step(s, a));
  }

  lemma RunCallbackPhases(s: State, r: nat)
    requires Inv(s) && Enabled(s, RunCallback(r))
    ensures PhasesOk(Step(s, RunCallback(r)))
  {
    var t := Step(s, RunCallback(r));
    forall q ensures HasCompleted(t, q) <==> HasCompleted(s, q) || q == r {
      if HasCompleted(s, q) {
        var i :| 0 <= i < |s.completed| && s.completed[i].request == q;
        assert t.completed[i].request == q;
      }
      if q == r { assert t.completed[|s.completed|].request == r; }
    }
    forall i | 0 <= i < |s.completed| ensures s.completed[i].request != r {
      assert s.completed[i].request == r ==> HasCompleted(s, r);
    }
    hide HasCompleted, SlotsOk, TasksOk, TimeoutsOk, RepliesOk;
    CompletedPhases(s, t, r);
  }

  lemma CompletedPhases(s: State, t: State, r: nat)
    requires PhasesOk(s) && r in s.finishing
    requires t == s.(finishing := s.finishing - {r}, completed := t.completed)
    requires |t.completed| == |s.completed| + 1 && t.completed[|s.completed|].request == r
    requires forall i | 0 <= i < |s.completed| :: t.completed[i] == s.completed[i] && s.completed[i].request != r
    requires forall q :: HasCompleted(t, q) <==> HasCompleted(s, q) || q == r
    ensures PhasesOk(t)
  {
    hide HasCompleted;
  }

  lemma RunCallbackSlots(s: State, r: nat)
    requires Inv(s) && Enabled(s, RunCallback(r))
    ensures SlotsOk(Step(s, RunCallback(r)))
  {
    hide SlotsOk, PhasesOk, TasksOk, TimeoutsOk, RepliesOk;
    SlotsCarried(s, Step(s, RunCallback(r)));
  }

  lemma RunCallbackKeeps(s: State, r: nat)
    requires Inv(s) && Enabled(s, RunCallback(r))
    ensures Inv(Step(s, RunCallback(r)))
  {
    hide SlotsOk, PhasesOk;
    RunCallbackPhases(s, r);
    RunCallbackSlots(s, r);
  }

  lemma StepPhases(s: State, a: Action)
    requires Inv(s) && Enabled(s, a) && !a.RunSlot? && !a.RunTimeout? && !a.RunCallback?
    ensures PhasesOk(Step(s, a))
  {
    hide Inv, PhasesOk, Step, Enabled;
    match a
    case Prepare(connection, responseType, timed) => PreparePhases(s, connection, responseType, timed);
    case Register(r) => RegisterPhases(s, r);
    case _ => OtherPhases(s, a);
  }

  lemma StepSlots(s: State, a: Action)
    requires Inv(s) && Enabled(s, a) && !a.RunSlot? && !a.RunTimeout? && !a.RunCallback?
    ensures SlotsOk(Step(s, a))
  {
    hide Inv, SlotsOk, Step, Enabled;
    match a
    case SubscribeSuccess(r) => SubscribeSuccessSlots(s, r);
    case SubscribeError(r) => SubscribeErrorSlots(s, r);
    case Register(r) => RegisterSlots(s, r);
    case _ => if ServiceStep(a) || CancelStep(a) { OtherSlots(s, a); } else { CallSlots(s, a); }
  }

  lemma StepTimeouts(s: State, a: Action)
    requires Inv(s) && Enabled(s, a) && !a.RunSlot? && !a.RunTimeout? && !a.RunCallback?
    ensures TimeoutsOk(Step(s, a))
  {
    hide Inv, TimeoutsOk, Step, Enabled;
    match a
    case Register(r) => RegisterTimeouts(s, r);
    case AddTask(_) => ArmingTimeouts(s, a);
    case Arm(_) => ArmingTimeouts(s, a);
    case _ =>
      if EarlyStep(a) { EarlyTimeouts(s, a); }
      else if CancelStep(a) { CancelTimeouts(s, a); }
      else { OtherTimeouts(s, a); }
  }

  lemma StepKeeps(s: State, a: Action)
    requires Inv(s) && Enabled(s, a)
    ensures Inv(Step(s, a))
  {
    hide PhasesOk, SlotsOk, TasksOk, TimeoutsOk, RepliesOk, Step, Enabled;
    match a {
      case RunSlot(id) => RunSlotKeeps(s, id);
      case RunTimeout(t) => RunTimeoutKeeps(s, t);
      case RunCallback(r) => RunCallbackKeeps(s, r);
      case _ =>
        StepPhases(s, a);
        StepSlots(s, a);
        StepTimeouts(s, a);
        if EarlyStep(a) { EarlyTasks(s, a); EarlyReplies(s, a); }
        if LateStep(a) { LateTasks(s, a); LateReplies(s, a); }
        if ServiceStep(a) { ServiceTasks(s, a); ServiceReplies(s, a); }
        if CancelStep(a) { CancelTasks(s, a); CancelReplies(s, a); }
    }
  }

  /** The invariant holds over every interleaving. */
  lemma {:induction false} RunKeeps(s: State, actions: seq<Action>)
    requires Inv(s) && Runs(s, actions)
    ensures Inv(Exec(s, actions))
    decreases |actions|
  {
    hide Step, Inv, Enabled;
    if actions != [] {
      StepKeeps(s, actions[0]);
      RunKeeps(Step(s, actions[0]), actions[1..]);
    }
  }

  // ------------------------------------------------------------------- theorems

  lemma StartOk()
    ensures Inv(START)
  {
  }

  /** Over every interleaving of replies, duplicates, replies on other
      connections, timeouts and other calls, at most one callback of a call runs
      and it runs at most once; a reply has completed a call only if it came on
      the call's connection, named the call's request and was of a type the call
      waits for. */
  lemma AtMostOneCompletion(actions: seq<Action>)
    requires Runs(START, actions)
    ensures var s := Exec(START, actions);
      && (forall i, j | 0 <= i < j < |s.completed| :: s.completed[i].request != s.completed[j].request)
      && (forall c | c in s.completed :: c.request !in s.calls && Justified(s, c.request, c.kind, c.reply))
  {
    StartOk();
    RunKeeps(START, actions);
    var s := Exec(START, actions);
    hide Exec, Runs;
    forall c | c in s.completed ensures c.request !in s.calls && Justified(s, c.request, c.kind, c.reply) {
      var i :| 0 <= i < |s.completed| && s.completed[i] == c;
      assert HasCompleted(s, c.request);
    }
  }

  function SuccessKeys(s: State): map<nat, SlotKey> {
    map r | r in s.calls :: s.calls[r].success
  }

  function ErrorKeys(s: State): map<nat, SlotKey> {
    map r | r in s.calls :: s.calls[r].error
  }

  lemma {:induction false} DistinctValues(m: map<nat, SlotKey>)
    requires forall r, q | r in m && q in m && r != q :: m[r] != m[q]
    ensures |m.Values| == |m|
  {
    if m != map[] {
      var r :| r in m;
      var rest := m - {r};
      DistinctValues(rest);
      forall key | key in m.Values ensures key in rest.Values + {m[r]} {
        var q :| q in m && m[q] == key;
        assert q == r || q in rest;
      }
      assert m.Values == rest.Values + {m[r]};
      assert m[r] !in rest.Values;
      assert m.Keys == rest.Keys + {r};
    }
  }

  /** Whenever no call is just being registered, the live slots are exactly the
      two of each pending call: none leaks and none is missing. */
  lemma TwoSlotsPerCall(s: State)
    requires Inv(s)
    requires forall r | r in s.calling :: !s.calling[r].OneSlot? && !s.calling[r].TwoSlots?
    ensures s.slots.Keys == SuccessKeys(s).Values + ErrorKeys(s).Values
    ensures |s.slots| == 2 * |s.calls|
  {
    CallsHoldSlots(s);
    SlotsHaveCalls(s);
    hide Inv, SuccessKeys, ErrorKeys;
    SuccessCount(s);
    ErrorCount(s);
    KeysDisjoint(s);
  }

  lemma SuccessCount(s: State)
    requires forall r | r in s.calls :: HoldsSuccess(s, r, s.calls[r].success)
    ensures |SuccessKeys(s).Values| == |s.calls|
  {
    var m := SuccessKeys(s);
    assert m.Keys == s.calls.Keys;
    assert |m| == |m.Keys| && |s.calls| == |s.calls.Keys|;
    forall r, q | r in m && q in m && r != q ensures m[r] != m[q] {
      assert HoldsSuccess(s, r, m[r]) && HoldsSuccess(s, q, m[q]);
    }
    DistinctValues(m);
  }

  lemma ErrorCount(s: State)
    requires forall r | r in s.calls :: HoldsError(s, r, s.calls[r].error)
    ensures |ErrorKeys(s).Values| == |s.calls|
  {
    var m := ErrorKeys(s);
    assert m.Keys == s.calls.Keys;
    assert |m| == |m.Keys| && |s.calls| == |s.calls.Keys|;
    forall r, q | r in m && q in m && r != q ensures m[r] != m[q] {
      assert HoldsError(s, r, m[r]) && HoldsError(s, q, m[q]);
    }
    DistinctValues(m);
  }

  lemma CallsHoldSlots(s: State)
    requires SlotsOk(s)
    ensures forall r | r in s.calls :: HoldsSuccess(s, r, s.calls[r].success) && HoldsError(s, r, s.calls[r].error)
  {
    forall r | r in s.calls ensures HoldsSuccess(s, r, s.calls[r].success) && HoldsError(s, r, s.calls[r].error) {
      assert OwnsSuccess(s, r, s.calls[r].success) && OwnsError(s, r, s.calls[r].error);
    }
  }

  lemma SlotsHaveCalls(s: State)
    requires SlotsOk(s)
    requires forall r | r in s.calling :: !s.calling[r].OneSlot? && !s.calling[r].TwoSlots?
    ensures s.slots.Keys == SuccessKeys(s).Values + ErrorKeys(s).Values
  {
    CallsHoldSlots(s);
    forall key | key in s.slots ensures key in SuccessKeys(s).Values + ErrorKeys(s).Values {
      var r := s.slots[key].request;
      assert OwnsSuccess(s, r, key) || OwnsError(s, r, key);
      assert r in SuccessKeys(s) && r in ErrorKeys(s);
    }
  }

  lemma KeysDisjoint(s: State)
    requires forall r | r in s.calls :: HoldsSuccess(s, r, s.calls[r].success) && HoldsError(s, r, s.calls[r].error)
    requires s.slots.Keys == SuccessKeys(s).Values + ErrorKeys(s).Values
    requires |SuccessKeys(s).Values| == |ErrorKeys(s).Values| == |s.calls|
    ensures |s.slots| == 2 * |s.calls|
  {
    assert SuccessKeys(s).Values !! ErrorKeys(s).Values;
    assert |s.slots| == |s.slots.Keys|;
  }

  /** Cancelling the timeout of one call removes no task of another. */
  lemma CancelRemovesOwnTask(s: State, r: nat)
    requires Inv(s) && Enabled(s, RemoveTask(r))
    ensures forall t | t in s.tasks && t !in Step(s, RemoveTask(r)).tasks :: OwnTask(s, r, t)
    ensures forall q | q in s.calls && IsArmed(s, q) ::
              q in s.timeouts && Ticking(Step(s, RemoveTask(r)), s.timeouts[q])
  {
    StepKeeps(s, RemoveTask(r));
    hide PhasesOk, SlotsOk, RepliesOk;
  }

  /** The steps by which the timeout of a pending call completes it. */
  function TimeoutPath(s: State, r: nat): seq<Action>
    requires r in s.timeouts
  {
    var t := s.timeouts[r];
    (if t in s.collected then [] else [Collect(t)]) + [RunTimeout(t), CancelEntry(r), RemoveTask(r), RunCallback(r)]
  }

  lemma ExecNothing(s: State)
    ensures Runs(s, []) && Exec(s, []) == s
  {
  }

  lemma ExecAppend(s: State, a: Action, rest: seq<Action>)
    requires Enabled(s, a) && Runs(Step(s, a), rest)
    ensures Runs(s, [a] + rest) && Exec(s, [a] + rest) == Exec(Step(s, a), rest)
  {
    hide Step, Enabled;
    assert ([a] + rest)[1..] == rest;
  }

  lemma {:induction false} ExecConcat(s: State, a: seq<Action>, b: seq<Action>)
    requires Runs(s, a) && Runs(Exec(s, a), b)
    ensures Runs(s, a + b) && Exec(s, a + b) == Exec(Exec(s, a), b)
    decreases |a|
  {
    hide Step, Enabled;
    if a == [] {
      assert a + b == b;
    } else {
      ExecConcat(Step(s, a[0]), a[1..], b);
      assert (a + b)[1..] == a[1..] + b;
    }
  }

  /** A claimed call, left alone, has its timeout cancelled and its callback run. */
  lemma FinishClaimed(s: State, r: nat)
    requires AtStage(s, r, Erased)
    ensures var path := [CancelEntry(r), RemoveTask(r), RunCallback(r)];
      && Runs(s, path)
      && Exec(s, path).completed == s.completed + [Completion(r, s.finishing[r].kind, s.finishing[r].reply)]
  {
    var s1 := Step(s, CancelEntry(r));
    var s2 := Step(s1, RemoveTask(r));
    var s3 := Step(s2, RunCallback(r));
    assert Enabled(s1, RemoveTask(r)) && Enabled(s2, RunCallback(r));
    assert s3.completed == s.completed + [Completion(r, s.finishing[r].kind, s.finishing[r].reply)];
    hide Step, Enabled;
    ExecAppend(s2, RunCallback(r), []);
    ExecAppend(s1, RemoveTask(r), [RunCallback(r)]);
    ExecAppend(s, CancelEntry(r), [RemoveTask(r)] + [RunCallback(r)]);
    assert [CancelEntry(r)] + ([RemoveTask(r)] + [RunCallback(r)]) == [CancelEntry(r), RemoveTask(r), RunCallback(r)];
  }

  /** From running the collected timeout on. */
  lemma FinishTimeout(s: State, r: nat, t: nat)
    requires r in s.calls && t in s.collected && OwnTask(s, r, t)
    ensures var path := [RunTimeout(t), CancelEntry(r), RemoveTask(r), RunCallback(r)];
      && Runs(s, path) && Exec(s, path).completed == s.completed + [Completion(r, Timeout, None)]
  {
    var s1 := Step(s, RunTimeout(t));
    assert s1.completed == s.completed && s1.finishing[r] == Winner(Timeout, None, Erased);
    hide Step, Claim;
    FinishClaimed(s1, r);
    ExecAppend(s, RunTimeout(t), [CancelEntry(r), RemoveTask(r), RunCallback(r)]);
    assert [RunTimeout(t)] + [CancelEntry(r), RemoveTask(r), RunCallback(r)]
        == [RunTimeout(t), CancelEntry(r), RemoveTask(r), RunCallback(r)];
  }

  /** No timed call is stranded: in every state that can be reached, a pending
      call whose timeout is armed can be completed by the scheduler alone, and it
      is then completed as timed out. */
  lemma ArmedCallCanTimeOut(s: State, r: nat)
    requires Inv(s) && r in s.calls && IsArmed(s, r)
    ensures r in s.timeouts && Runs(s, TimeoutPath(s, r))
    ensures Exec(s, TimeoutPath(s, r)).completed == s.completed + [Completion(r, Timeout, None)]
  {
    ArmedTicks(s, r);
    var t := s.timeouts[r];
    var finish := [RunTimeout(t), CancelEntry(r), RemoveTask(r), RunCallback(r)];
    if t in s.collected {
      FinishTimeout(s, r, t);
      assert [] + finish == finish;
    } else {
      CollectedTimeout(s, r, t);
      var u := Step(s, Collect(t));
      hide Step, Inv;
      FinishTimeout(u, r, t);
      ExecAppend(s, Collect(t), finish);
    }
  }

  lemma ArmedTicks(s: State, r: nat)
    requires Inv(s) && r in s.calls && IsArmed(s, r)
    ensures r in s.timeouts && OwnTask(s, r, s.timeouts[r]) && Ticking(s, s.timeouts[r])
  {
    hide PhasesOk, SlotsOk, RepliesOk;
  }

  lemma CollectedTimeout(s: State, r: nat, t: nat)
    requires Inv(s) && r in s.calls && OwnTask(s, r, t) && Ticking(s, t) && t !in s.collected
    ensures Enabled(s, Collect(t))
    ensures var u := Step(s, Collect(t));
      u.completed == s.completed && r in u.calls && t in u.collected && OwnTask(u, r, t)
  {
    hide Inv;
  }
}
