/** The queue of received messages: network threads append to it, the
    application thread swaps it for an empty one and handles the batch. */
module MessageProcessor {
  import opened Sequences

  /** A message as its envelope shows it; bytes that are no envelope have none. */
  datatype Message = Message(connection: nat, messageType: nat, payload: seq<int>)

  datatype State = State(
    types: set<nat>,
    tasks: seq<Message>,
    batch: seq<Message>,
    stopped: bool,
    accepted: seq<Message>,
    handled: seq<Message>)

  function Start(types: set<nat>): State {
    State(types, [], [], false, [], [])
  }

  datatype Action =
    | Enqueue(envelope: Option<Message>)
    | Swap
    | Handle
    | Stop

  predicate Enabled(s: State, a: Action) {
    match a
    case Enqueue(_) => true
    case Swap => s.batch == [] && s.tasks != [] && !s.stopped
    case Handle => s.batch != []
    case Stop => true
  }

  predicate Accepts(s: State, envelope: Option<Message>) {
    envelope.Some? && envelope.value.messageType in s.types && !s.stopped
  }

  function Step(s: State, a: Action): State
    requires Enabled(s, a)
  {
    match a
    case Enqueue(e) =>
      if Accepts(s, e) then s.(tasks := s.tasks + [e.value], accepted := s.accepted + [e.value]) else s
    case Swap => s.(batch := s.tasks, tasks := [])
    case Handle => s.(batch := s.batch[1..], handled := s.handled + [s.batch[0]])
    case Stop => s.(stopped := true)
  }

  predicate Runs(s: State, actions: seq<Action>)
    decreases |actions|
  {
    actions == [] || (Enabled(s, actions[0]) && Runs(Step(s, actions[0]), actions[1..]))
  }

  function Exec(s: State, actions: seq<Action>): State
    requires Runs(s, actions)
    decreases |actions|
  {
    if actions == [] then s else Exec(Step(s, actions[0]), actions[1..])
  }

  /** The envelopes of a run that name a known type, up to the first Stop. */
  function Offered(types: set<nat>, actions: seq<Action>): seq<Message> {
    if actions == [] || actions[0].Stop? then []
    else
      var rest := Offered(types, actions[1..]);
      if actions[0].Enqueue? && actions[0].envelope.Some? && actions[0].envelope.value.messageType in types then
        [actions[0].envelope.value] + rest
      else rest
  }

  predicate Inv(s: State) {
    s.handled + s.batch + s.tasks == s.accepted
  }

  lemma StepKeeps(s: State, a: Action)
    requires Inv(s) && Enabled(s, a)
    ensures Inv(Step(s, a))
  {
    match a
    case Enqueue(e) =>
      if Accepts(s, e) { assert s.handled + s.batch + (s.tasks + [e.value]) == s.handled + s.batch + s.tasks + [e.value]; }
    case Swap => assert s.handled + s.tasks + [] == s.handled + s.batch + s.tasks;
    case Handle => assert s.handled + [s.batch[0]] + s.batch[1..] == s.handled + s.batch;
    case Stop =>
  }

  lemma {:induction false} RunKeeps(s: State, actions: seq<Action>)
    requires Inv(s) && Runs(s, actions)
    ensures Inv(Exec(s, actions))
    ensures Exec(s, actions).accepted == s.accepted + if s.stopped then [] else Offered(s.types, actions)
    decreases |actions|
  {
    if actions != [] {
      StepKeeps(s, actions[0]);
      AcceptedStep(s, actions);
      hide Inv, Step, Enabled, Offered;
      RunKeeps(Step(s, actions[0]), actions[1..]);
    }
  }

  lemma AcceptedStep(s: State, actions: seq<Action>)
    requires actions != [] && Enabled(s, actions[0])
    ensures var t := Step(s, actions[0]);
      t.accepted + (if t.stopped then [] else Offered(t.types, actions[1..]))
      == s.accepted + if s.stopped then [] else Offered(s.types, actions)
  {
    if actions[0].Enqueue? && Accepts(s, actions[0].envelope) {
      assert s.accepted + ([actions[0].envelope.value] + Offered(s.types, actions[1..]))
          == s.accepted + [actions[0].envelope.value] + Offered(s.types, actions[1..]);
    }
  }

  /** Over every interleaving of arrivals, swaps, handling and stopping: what has
      been handled, then the batch, then the queue, make up exactly the messages
      of known type that arrived before the stop, in order of arrival. */
  lemma HandledIsPrefix(types: set<nat>, actions: seq<Action>)
    requires Runs(Start(types), actions)
    ensures var s := Exec(Start(types), actions);
      && s.handled + s.batch + s.tasks == Offered(types, actions)
      && s.handled <= Offered(types, actions)
  {
    RunKeeps(Start(types), actions);
    hide Runs, Exec, Offered;
    assert [] + Offered(types, actions) == Offered(types, actions);
  }

  /** After a stop only the rest of the batch already taken is handled. */
  lemma {:induction false} StoppedHandlesBatch(s: State, actions: seq<Action>)
    requires s.stopped && Runs(s, actions)
    ensures var t := Exec(s, actions);
      t.stopped && t.handled + t.batch == s.handled + s.batch && t.tasks == s.tasks && t.accepted == s.accepted
    decreases |actions|
  {
    if actions != [] {
      if actions[0].Handle? { assert s.handled + [s.batch[0]] + s.batch[1..] == s.handled + s.batch; }
      StoppedHandlesBatch(Step(s, actions[0]), actions[1..]);
    }
  }
}
