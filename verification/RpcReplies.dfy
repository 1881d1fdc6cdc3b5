/** What replies achieve: a reply that names a pending call completes it, whatever
    else happens in between; no call is lost, and every call is sent. */
module RpcReplies {
  import opened Sequences
  import opened Rpc
  import opened RpcRuns

  /** The reply names the call, its connection, and a type the call waits for: its
      response type or type 100, that of errors. */
  predicate Answers(s: State, r: nat, reply: Reply) {
    && r in s.issued && reply.request == r && reply.connection == s.issued[r].connection
    && (reply.messageType == s.issued[r].responseType || reply.messageType == 100)
  }

  function AnswerKind(reply: Reply): Kind {
    if reply.messageType == 100 then Error else Success
  }

  /** The slot that waits for this type of reply to a pending call. */
  function Target(s: State, reply: Reply): SlotKey
    requires reply.request in s.calls
  {
    if reply.messageType == 100 then s.calls[reply.request].error else s.calls[reply.request].success
  }

  predicate Hits(s: State, reply: Reply, id: nat) {
    reply.request in s.calls && Answers(s, reply.request, reply) && Target(s, reply).id == id
  }

  /** The emission after one slot has had its turn. */
  function Turned(s: State, id: nat): State
    requires s.emission.Some?
  {
    s.(emission := Some(s.emission.value.(todo := s.emission.value.todo - {id})))
  }

  // ---------------------------------------------------------------- one slot

  lemma PendingOwns(s: State, r: nat)
    requires Inv(s) && r in s.calls
    ensures HoldsSuccess(s, r, s.calls[r].success) && HoldsError(s, r, s.calls[r].error)
    ensures s.issued[r].responseType != 100
    ensures forall key :: OwnsSuccess(s, r, key) ==> key == s.calls[r].success
    ensures forall key :: OwnsError(s, r, key) ==> key == s.calls[r].error
  {
    CallsHoldSlots(s);
    hide SlotsOk, TasksOk, TimeoutsOk, RepliesOk, HasCompleted;
    assert !Early(s, r);
  }

  lemma SlotOwner(s: State, key: SlotKey)
    requires Inv(s) && key in s.slots
    ensures var r := s.slots[key].request; OwnsSuccess(s, r, key) || OwnsError(s, r, key)
  {
    hide PhasesOk, TasksOk, TimeoutsOk, RepliesOk, OwnsSuccess, OwnsError, HoldsSuccess, HoldsError;
  }

  /** A slot found with the reply's connection and request, while the call is pending,
      is the one that waits for it. */
  lemma MatchIsHit(s: State, reply: Reply, id: nat)
    requires Inv(s) && reply.request in s.calls
    requires var key := SlotKey(reply.messageType, id);
      key in s.slots && s.slots[key].connection == reply.connection && s.slots[key].request == reply.request
    ensures Hits(s, reply, id) && s.slots[SlotKey(reply.messageType, id)].kind == AnswerKind(reply)
  {
    PendingOwns(s, reply.request);
    SlotOwner(s, SlotKey(reply.messageType, id));
    hide Inv, OwnsSuccess, OwnsError;
  }

  lemma HitIsMatch(s: State, reply: Reply, id: nat)
    requires Inv(s) && Hits(s, reply, id)
    ensures var key := SlotKey(reply.messageType, id);
      key in s.slots && s.slots[key] == Slot(reply.request, reply.connection, AnswerKind(reply))
  {
    PendingOwns(s, reply.request);
    hide Inv, OwnsSuccess, OwnsError;
  }

  /** What running one slot of an emission does: it claims the call if that is pending
      and waits for this reply in this slot, and nothing otherwise. */
  lemma SlotEffect(s: State, id: nat)
    requires Inv(s) && Enabled(s, RunSlot(id))
    ensures var reply := s.emission.value.reply;
      Step(s, RunSlot(id)) ==
        if Hits(s, reply, id) then Claim(Turned(s, id), reply.request, AnswerKind(reply), Some(reply))
        else Turned(s, id)
  {
    var reply := s.emission.value.reply;
    var key := SlotKey(reply.messageType, id);
    if Hits(s, reply, id) { HitIsMatch(s, reply, id); }
    if key in s.slots && s.slots[key].connection == reply.connection && s.slots[key].request == reply.request
       && reply.request in s.calls {
      MatchIsHit(s, reply, id);
    }
    hide Inv, Hits;
  }

  // ------------------------------------------------- an emission left alone

  function RunSlots(order: seq<nat>): seq<Action> {
    if order == [] then [] else [RunSlot(order[0])] + RunSlots(order[1..])
  }

  ghost predicate Lists(order: seq<nat>, ids: set<nat>) {
    && (forall i, j | 0 <= i < j < |order| :: order[i] != order[j])
    && (forall id :: id in order <==> id in ids)
  }

  lemma ListsRest(order: seq<nat>, ids: set<nat>)
    requires Lists(order, ids) && order != []
    ensures order[0] in ids && Lists(order[1..], ids - {order[0]})
  {
    assert order == [order[0]] + order[1..];
  }

  /** What an emission under way is about to claim. */
  predicate WillClaim(s: State) {
    s.emission.Some? &&
    var reply := s.emission.value.reply;
    reply.request in s.calls && Answers(s, reply.request, reply) && Target(s, reply).id in s.emission.value.todo
  }

  /** What is left when all slots of the emission have run. */
  ghost predicate Emitted(s: State, t: State) {
    s.emission.Some? &&
    var reply := s.emission.value.reply;
    && t.emission == Some(Emitting(reply, {})) && t.completed == s.completed && t.issued == s.issued
    && t.calls == (if WillClaim(s) then s.calls - {reply.request} else s.calls)
    && t.finishing == if WillClaim(s) then s.finishing[reply.request := Winner(AnswerKind(reply), Some(reply), Erased)]
                      else s.finishing
  }

  lemma TurnEmits(s: State, u: State, t: State, id: nat)
    requires s.emission.Some? && id in s.emission.value.todo
    requires var reply := s.emission.value.reply;
      u == if Hits(s, reply, id) then Claim(Turned(s, id), reply.request, AnswerKind(reply), Some(reply)) else Turned(s, id)
    requires Emitted(u, t)
    ensures Emitted(s, t)
  {
  }

  lemma {:induction false} EmissionOutcome(s: State, order: seq<nat>)
    requires Inv(s) && s.emission.Some? && Lists(order, s.emission.value.todo)
    ensures Runs(s, RunSlots(order)) && Emitted(s, Exec(s, RunSlots(order)))
    decreases |order|
  {
    hide Step, Enabled, Inv, Emitted, Hits, Claim, Runs, Exec;
    if order == [] {
      NothingToEmit(s, order);
    } else {
      var id := order[0];
      ListsRest(order, s.emission.value.todo);
      SlotEnabled(s, id);
      SlotEffect(s, id);
      StepKeeps(s, RunSlot(id));
      var u := Step(s, RunSlot(id));
      TurnLeaves(s, u, id);
      hide Lists;
      EmissionOutcome(u, order[1..]);
      TurnEmits(s, u, Exec(u, RunSlots(order[1..])), id);
      ExecAppend(s, RunSlot(id), RunSlots(order[1..]));
    }
  }

  lemma NothingToEmit(s: State, order: seq<nat>)
    requires s.emission.Some? && Lists(order, s.emission.value.todo) && order == []
    ensures Runs(s, RunSlots(order)) && Emitted(s, Exec(s, RunSlots(order)))
  {
    assert s.emission.value.todo == {};
    ExecNothing(s);
    hide Runs, Exec;
  }

  lemma SlotEnabled(s: State, id: nat)
    requires s.emission.Some? && id in s.emission.value.todo
    ensures Enabled(s, RunSlot(id))
  {
  }

  lemma TurnLeaves(s: State, u: State, id: nat)
    requires s.emission.Some?
    requires var reply := s.emission.value.reply;
      u == if Hits(s, reply, id) then Claim(Turned(s, id), reply.request, AnswerKind(reply), Some(reply)) else Turned(s, id)
    ensures u.emission == Some(Emitting(s.emission.value.reply, s.emission.value.todo - {id}))
  {
    hide Hits;
  }

  lemma DeliverStarts(s: State, reply: Reply)
    requires Inv(s) && s.emission.None?
    ensures Enabled(s, Deliver(reply))
    ensures var u := Step(s, Deliver(reply));
      && u == s.(emission := u.emission) && u.emission.Some? && u.emission.value.reply == reply
      && (forall id :: id in u.emission.value.todo <==> SlotKey(reply.messageType, id) in s.slots)
      && (WillClaim(u) <==> reply.request in s.calls && Answers(s, reply.request, reply))
  {
    var u := Step(s, Deliver(reply));
    forall id ensures id in u.emission.value.todo <==> SlotKey(reply.messageType, id) in s.slots {
      assert SlotKey(reply.messageType, id) in s.slots ==> SlotKey(reply.messageType, id).id == id;
    }
    if reply.request in s.calls && Answers(s, reply.request, reply) {
      HitIsMatch(s, reply, Target(s, reply).id);
    }
    hide Inv, Step;
  }

  /** A reply delivered and emitted with nothing in between, over the slots in any
      order: a call pending before is claimed exactly when the reply comes on its
      connection, with its request id, and is of its response type or of type 100. Its
      winner is this reply, as a success or an error; the other calls stay pending. */
  lemma ReplyClaims(s: State, reply: Reply, order: seq<nat>)
    requires Inv(s) && s.emission.None?
    requires Lists(order, set key | key in s.slots && key.messageType == reply.messageType :: key.id)
    ensures var path := [Deliver(reply)] + RunSlots(order);
      && Runs(s, path)
      && var t := Exec(s, path);
         && t.completed == s.completed && t.emission.Some? && t.emission.value.todo == {}
         && (forall r | r in s.calls ::
               r !in t.calls <==>
                 && reply.request == r && r in s.issued && reply.connection == s.issued[r].connection
                 && (reply.messageType == s.issued[r].responseType || reply.messageType == 100))
         && (forall r | r in s.calls && r !in t.calls ::
               r in t.finishing && t.finishing[r] == Winner(if reply.messageType == 100 then Error else Success, Some(reply), Erased))
  {
    DeliverStarts(s, reply);
    StepKeeps(s, Deliver(reply));
    var u := Step(s, Deliver(reply));
    assert u.emission.value.todo == (set key | key in s.slots && key.messageType == reply.messageType :: key.id);
    hide Step, Inv, Runs, Exec;
    EmissionOutcome(u, order);
    ExecAppend(s, Deliver(reply), RunSlots(order));
    hide Lists, WillClaim, Enabled;
  }

  /** And left alone the call completes with this reply. */
  lemma ReplyCompletes(s: State, reply: Reply, order: seq<nat>, r: nat)
    requires Inv(s) && s.emission.None? && r in s.calls
    requires Lists(order, set key | key in s.slots && key.messageType == reply.messageType :: key.id)
    requires reply.request == r && r in s.issued && reply.connection == s.issued[r].connection
    requires reply.messageType == s.issued[r].responseType || reply.messageType == 100
    ensures var path := ([Deliver(reply)] + RunSlots(order)) + [CancelEntry(r), RemoveTask(r), RunCallback(r)];
      && Runs(s, path)
      && Exec(s, path).completed
           == s.completed + [Completion(r, if reply.messageType == 100 then Error else Success, Some(reply))]
  {
    ReplyClaims(s, reply, order);
    var first := [Deliver(reply)] + RunSlots(order);
    var t := Exec(s, first);
    hide Inv, Runs, Exec, RunSlots, Lists;
    FinishClaimed(t, r);
    ExecConcat(s, first, [CancelEntry(r), RemoveTask(r), RunCallback(r)]);
  }

  // -------------------------------------- an emission with others in between

  /** The reply is being emitted, and if the call is still pending its slot is still
      to have its turn. */
  predicate Awaits(s: State, r: nat, reply: Reply) {
    && s.emission.Some? && s.emission.value.reply == reply && Answers(s, r, reply) && !Early(s, r)
    && (r in s.calls ==> Target(s, reply).id in s.emission.value.todo)
  }

  lemma AwaitsSlot(s: State, id: nat, r: nat, reply: Reply)
    requires Inv(s) && Enabled(s, RunSlot(id)) && Awaits(s, r, reply)
    ensures Awaits(Step(s, RunSlot(id)), r, reply)
  {
    SlotEffect(s, id);
    hide Inv, Step, Enabled;
  }

  /** The other steps leave a pending call and the emission as they are, or claim the
      call. */
  lemma CallUntouched(s: State, a: Action, r: nat)
    requires Enabled(s, a) && !a.RunSlot? && a != EndEmission && s.emission.Some?
    requires r in s.issued && r < s.nextRequest && !Early(s, r)
    ensures var t := Step(s, a);
      && t.emission == s.emission && r in t.issued && t.issued[r] == s.issued[r] && !Early(t, r)
      && (r in t.calls ==> r in s.calls && t.calls[r] == s.calls[r])
  {
    if a.RunTimeout? { ClaimUntouched(s.(collected := s.collected - {a.t}), s.owner[a.t], Timeout, None, r); }
    hide Claim;
  }

  lemma ClaimUntouched(s: State, q: nat, kind: Kind, reply: Option<Reply>, r: nat)
    ensures var t := Claim(s, q, kind, reply);
      && t.emission == s.emission && t.issued == s.issued && t.calling == s.calling
      && (r in t.calls ==> r in s.calls && t.calls[r] == s.calls[r])
  {
  }

  lemma AwaitsOther(s: State, a: Action, r: nat, reply: Reply)
    requires Inv(s) && Enabled(s, a) && !a.RunSlot? && a != EndEmission && Awaits(s, r, reply)
    ensures Awaits(Step(s, a), r, reply)
  {
    assert r < s.nextRequest by { hide SlotsOk, TasksOk, TimeoutsOk, RepliesOk, HasCompleted; }
    hide Inv, Early;
    CallUntouched(s, a, r);
    hide Step, Enabled;
  }

  lemma {:induction false} AwaitsRun(s: State, actions: seq<Action>, r: nat, reply: Reply)
    requires Inv(s) && Runs(s, actions) && EndEmission !in actions && Awaits(s, r, reply)
    ensures Awaits(Exec(s, actions), r, reply)
    decreases |actions|
  {
    hide Inv, Step, Enabled, Awaits;
    if actions != [] {
      var a := actions[0];
      assert a in actions;
      StepKeeps(s, a);
      if a.RunSlot? { AwaitsSlot(s, a.id, r, reply); } else { AwaitsOther(s, a, r, reply); }
      AwaitsRun(Step(s, a), actions[1..], r, reply);
    }
  }

  /** However the steps of other calls, timeouts, completions and the scheduler come
      in between: once every slot of the emission has had its turn, a call that the
      reply answers is no longer pending. */
  lemma ReplyIsNeverIgnored(s: State, reply: Reply, actions: seq<Action>)
    requires Inv(s) && s.emission.None? && reply.request in s.calls
    requires reply.connection == s.issued[reply.request].connection
    requires reply.messageType == s.issued[reply.request].responseType || reply.messageType == 100
    requires Runs(Step(s, Deliver(reply)), actions) && EndEmission !in actions
    requires var t := Exec(Step(s, Deliver(reply)), actions); t.emission.Some? && t.emission.value.todo == {}
    ensures reply.request !in Exec(Step(s, Deliver(reply)), actions).calls
  {
    DeliverStarts(s, reply);
    StepKeeps(s, Deliver(reply));
    var u := Step(s, Deliver(reply));
    PendingIsNotEarly(s, reply.request);
    hide Step, Inv, Runs, Exec, Enabled;
    AwaitsRun(u, actions, reply.request, reply);
  }

  lemma PendingIsNotEarly(s: State, r: nat)
    requires Inv(s) && r in s.calls
    ensures r in s.issued && !Early(s, r)
  {
    hide SlotsOk, TasksOk, TimeoutsOk, RepliesOk, HasCompleted;
  }
}
