/** Completion of remote calls as a state machine. The steps of a call, of the
    delivery of replies, of the scheduler and of a completion interleave freely:
    success, error and timeout race for each pending call. */
module Rpc {
  import opened Sequences

  /** The message type of every error reply. */
  const ERROR_TYPE: nat := 100

  datatype Kind = Success | Error | Timeout

  /** What a call was prepared with. */
  datatype Request = Request(connection: nat, responseType: nat, timed: bool)

  /** A slot of the signal of one message type; ids are per type. */
  datatype SlotKey = SlotKey(messageType: nat, id: nat)

  datatype Slot = Slot(request: nat, connection: nat, kind: Kind)

  /** The two subscriptions a pending call owns. */
  datatype Pending = Pending(success: SlotKey, error: SlotKey)

  /** Where the calling thread stands in Call. */
  datatype Calling =
    | Prepared
    | OneSlot(success: SlotKey)
    | TwoSlots(pending: Pending)
    | Registered
    | Scheduled(task: nat)
    | Armed

  datatype Reply = Reply(messageType: nat, connection: nat, request: nat)

  /** Where a thread that has won a call stands in HandleCallback. */
  datatype Stage = Erased | Cancelled(task: Option<nat>) | Ready

  datatype Winner = Winner(kind: Kind, reply: Option<Reply>, stage: Stage)

  datatype Completion = Completion(request: nat, kind: Kind, reply: Option<Reply>)

  /** The emission of a reply: the ids of the snapshot still to be run. */
  datatype Emitting = Emitting(reply: Reply, todo: set<nat>)

  datatype State = State(
    nextRequest: nat,
    issued: map<nat, Request>,
    calling: map<nat, Calling>,
    calls: map<nat, Pending>,
    counters: map<nat, nat>,
    slots: map<SlotKey, Slot>,
    emission: Option<Emitting>,
    timeouts: map<nat, nat>,
    nextTask: nat,
    owner: map<nat, nat>,
    tasks: set<nat>,
    collected: set<nat>,
    deleted: set<nat>,
    finishing: map<nat, Winner>,
    sent: set<nat>,
    completed: seq<Completion>)

  const START := State(1, map[], map[], map[], map[], map[], None, map[], 1, map[], {}, {}, {}, map[], {}, [])

  datatype Action =
    | Prepare(connection: nat, responseType: nat, timed: bool)
    | SubscribeSuccess(r: nat)
    | SubscribeError(r: nat)
    | Register(r: nat)
    | AddTask(r: nat)
    | Arm(r: nat)
    | Send(r: nat)
    | Deliver(reply: Reply)
    | RunSlot(id: nat)
    | EndEmission
    | Collect(t: nat)
    | RunTimeout(t: nat)
    | EraseTask(t: nat)
    | CancelEntry(r: nat)
    | RemoveTask(r: nat)
    | RunCallback(r: nat)

  function Counter(s: State, messageType: nat): nat {
    if messageType in s.counters then s.counters[messageType] else 0
  }

  predicate At(s: State, r: nat, c: Calling) {
    r in s.calling && s.calling[r] == c
  }

  predicate AtStage(s: State, r: nat, stage: Stage) {
    r in s.finishing && s.finishing[r].stage == stage
  }

  predicate Enabled(s: State, a: Action) {
    match a
    case Prepare(_, responseType, _) => responseType != ERROR_TYPE
    case SubscribeSuccess(r) => At(s, r, Prepared) && r in s.issued
    case SubscribeError(r) => r in s.calling && s.calling[r].OneSlot? && r in s.issued
    case Register(r) => r in s.calling && s.calling[r].TwoSlots?
    case AddTask(r) => At(s, r, Registered) && r in s.issued && s.issued[r].timed
    case Arm(r) => r in s.calling && s.calling[r].Scheduled?
    case Send(r) => r in s.issued && At(s, r, if s.issued[r].timed then Armed else Registered)
    case Deliver(_) => s.emission.None?
    case RunSlot(id) => s.emission.Some? && id in s.emission.value.todo
    case EndEmission => s.emission.Some? && s.emission.value.todo == {}
    case Collect(t) => t in s.tasks && t !in s.collected && t !in s.deleted
    case RunTimeout(t) => t in s.collected && t in s.owner
    case EraseTask(t) => t in s.deleted && t !in s.collected
    case CancelEntry(r) => AtStage(s, r, Erased)
    case RemoveTask(r) => r in s.finishing && s.finishing[r].stage.Cancelled?
    case RunCallback(r) => AtStage(s, r, Ready)
  }

  /** A new slot in the signal of a message type. */
  function Subscribed(s: State, messageType: nat, slot: Slot): State {
    var id := Counter(s, messageType);
    s.(counters := s.counters[messageType := id + 1], slots := s.slots[SlotKey(messageType, id) := slot])
  }

  function NewKey(s: State, messageType: nat): SlotKey {
    SlotKey(messageType, Counter(s, messageType))
  }

  /** HandleCallback up to the end of its lock: whoever finds the call pending
      erases it, which also destroys its two subscriptions. */
  function Claim(s: State, r: nat, kind: Kind, reply: Option<Reply>): State {
    if r !in s.calls then s
    else
      s.(calls := s.calls - {r},
         slots := s.slots - {s.calls[r].success, s.calls[r].error},
         finishing := s.finishing[r := Winner(kind, reply, Erased)])
  }

  function Step(s: State, a: Action): State
    requires Enabled(s, a)
  {
    match a
    case Prepare(connection, responseType, timed) =>
      s.(nextRequest := s.nextRequest + 1,
         issued := s.issued[s.nextRequest := Request(connection, responseType, timed)],
         calling := s.calling[s.nextRequest := Prepared])
    case SubscribeSuccess(r) =>
      var q := s.issued[r];
      Subscribed(s, q.responseType, Slot(r, q.connection, Success))
        .(calling := s.calling[r := OneSlot(NewKey(s, q.responseType))])
    case SubscribeError(r) =>
      Subscribed(s, ERROR_TYPE, Slot(r, s.issued[r].connection, Error))
        .(calling := s.calling[r := TwoSlots(Pending(s.calling[r].success, NewKey(s, ERROR_TYPE)))])
    case Register(r) => s.(calls := s.calls[r := s.calling[r].pending], calling := s.calling[r := Registered])
    case AddTask(r) =>
      s.(tasks := s.tasks + {s.nextTask}, owner := s.owner[s.nextTask := r], nextTask := s.nextTask + 1,
         calling := s.calling[r := Scheduled(s.nextTask)])
    case Arm(r) => s.(timeouts := s.timeouts[r := s.calling[r].task], calling := s.calling[r := Armed])
    case Send(r) => s.(calling := s.calling - {r}, sent := s.sent + {r})
    case Deliver(reply) =>
      s.(emission := Some(Emitting(reply, set k | k in s.slots && k.messageType == reply.messageType :: k.id)))
    case RunSlot(id) =>
      var e := s.emission.value;
      var key := SlotKey(e.reply.messageType, id);
      var t := s.(emission := Some(e.(todo := e.todo - {id})));
      if key !in s.slots || s.slots[key].connection != e.reply.connection || s.slots[key].request != e.reply.request then t
      else Claim(t, s.slots[key].request, s.slots[key].kind, Some(e.reply))
    case EndEmission => s.(emission := None)
    case Collect(t) => s.(collected := s.collected + {t}, deleted := s.deleted + {t})
    case RunTimeout(t) => Claim(s.(collected := s.collected - {t}), s.owner[t], Timeout, None)
    case EraseTask(t) => s.(tasks := s.tasks - {t}, deleted := s.deleted - {t})
    case CancelEntry(r) =>
      var entry := if r in s.timeouts then Some(s.timeouts[r]) else None;
      s.(timeouts := s.timeouts - {r}, finishing := s.finishing[r := s.finishing[r].(stage := Cancelled(entry))])
    case RemoveTask(r) =>
      var task := s.finishing[r].stage.task;
      s.(tasks := if task.Some? then s.tasks - {task.value} else s.tasks,
         finishing := s.finishing[r := s.finishing[r].(stage := Ready)])
    case RunCallback(r) =>
      var w := s.finishing[r];
      s.(finishing := s.finishing - {r}, completed := s.completed + [Completion(r, w.kind, w.reply)])
  }

  predicate Runs(s: State, actions: seq<Action>)
    decreases |actions|
  {
    actions == [] || (Enabled(s, actions[0]) && Runs(Step(s, actions[0]), actions[1..]))
  }

  function Exec(s: State, actions: seq<Action>): State
    requires Runs(s, actions)
    decreases |actions|
  {
    if actions == [] then s else Exec(Step(s, actions[0]), actions[1..])
  }

  // ---------------------------------------------------------------- invariant

  predicate HasCompleted(s: State, r: nat) {
    exists i :: 0 <= i < |s.completed| && s.completed[i].request == r
  }

  /** The call has not been registered yet. */
  predicate Early(s: State, r: nat) {
    r in s.calling && (s.calling[r].Prepared? || s.calling[r].OneSlot? || s.calling[r].TwoSlots?)
  }

  /** A call is early, pending, being finished or completed, never two of these. */
  ghost predicate PhasesOk(s: State) {
    && (forall r | r in s.issued :: r < s.nextRequest && s.issued[r].responseType != ERROR_TYPE)
    && (forall r | r in s.calling || r in s.calls || r in s.finishing || HasCompleted(s, r) :: r in s.issued)
    && (forall r | Early(s, r) :: r !in s.calls && r !in s.finishing && !HasCompleted(s, r))
    && (forall r | r in s.calls :: r !in s.finishing && !HasCompleted(s, r))
    && (forall r | r in s.finishing :: !HasCompleted(s, r))
    && (forall i, j | 0 <= i < j < |s.completed| :: s.completed[i].request != s.completed[j].request)
  }

  predicate HoldsSuccess(s: State, r: nat, key: SlotKey) {
    && r in s.issued && key.messageType == s.issued[r].responseType
    && key in s.slots && s.slots[key] == Slot(r, s.issued[r].connection, Success)
  }

  predicate HoldsError(s: State, r: nat, key: SlotKey) {
    && r in s.issued && key.messageType == ERROR_TYPE
    && key in s.slots && s.slots[key] == Slot(r, s.issued[r].connection, Error)
  }

  predicate OwnsSuccess(s: State, r: nat, key: SlotKey) {
    || (r in s.calls && s.calls[r].success == key)
    || (r in s.calling && s.calling[r] == OneSlot(key))
    || (r in s.calling && s.calling[r].TwoSlots? && s.calling[r].pending.success == key)
  }

  predicate OwnsError(s: State, r: nat, key: SlotKey) {
    || (r in s.calls && s.calls[r].error == key)
    || (r in s.calling && s.calling[r].TwoSlots? && s.calling[r].pending.error == key)
  }

  /** Live slots and their owners: two per pending call, and those that calls
      being registered hold already. */
  ghost predicate SlotsOk(s: State) {
    && (forall r, key | OwnsSuccess(s, r, key) :: HoldsSuccess(s, r, key))
    && (forall r, key | OwnsError(s, r, key) :: HoldsError(s, r, key))
    && (forall key | key in s.slots ::
          && key.id < Counter(s, key.messageType)
          && (OwnsSuccess(s, s.slots[key].request, key) || OwnsError(s, s.slots[key].request, key)))
  }

  predicate OwnTask(s: State, r: nat, t: nat) {
    t in s.owner && s.owner[t] == r
  }

  /** Every task id in use is known and belongs to the call that refers to it. */
  ghost predicate TasksOk(s: State) {
    && (forall t | t in s.owner :: t < s.nextTask)
    && (forall t | t in s.tasks || t in s.collected || t in s.deleted :: t in s.owner)
    && (forall r | r in s.timeouts :: OwnTask(s, r, s.timeouts[r]))
    && (forall r | r in s.calling && s.calling[r].Scheduled? :: OwnTask(s, r, s.calling[r].task))
    && (forall r | r in s.finishing && s.finishing[r].stage.Cancelled? && s.finishing[r].stage.task.Some? ::
          OwnTask(s, r, s.finishing[r].stage.task.value))
  }

  /** The task is still scheduled or its callback has been collected and will run. */
  predicate Ticking(s: State, t: nat) {
    (t in s.tasks && t !in s.deleted) || t in s.collected
  }

  predicate IsArmed(s: State, r: nat) {
    r in s.issued && s.issued[r].timed && (r !in s.calling || s.calling[r].Armed?)
  }

  /** No timed call is stranded: once armed, and even before, its timeout ticks. */
  predicate TimeoutsOk(s: State) {
    && (forall r | r in s.calls && IsArmed(s, r) :: r in s.timeouts && Ticking(s, s.timeouts[r]))
    && (forall r | r in s.calls && r in s.calling && s.calling[r].Scheduled? :: Ticking(s, s.calling[r].task))
  }

  /** A reply that may complete a call names its connection, its request and one
      of the two types the call waits for; a timeout comes with no reply. */
  predicate Justified(s: State, r: nat, kind: Kind, reply: Option<Reply>) {
    r in s.issued &&
    reply == match kind
      case Success => Some(Reply(s.issued[r].responseType, s.issued[r].connection, r))
      case Error => Some(Reply(ERROR_TYPE, s.issued[r].connection, r))
      case Timeout => None
  }

  predicate RepliesOk(s: State) {
    && (forall r | r in s.finishing :: Justified(s, r, s.finishing[r].kind, s.finishing[r].reply))
    && (forall i | 0 <= i < |s.completed| ::
          Justified(s, s.completed[i].request, s.completed[i].kind, s.completed[i].reply))
  }

  ghost predicate Inv(s: State) {
    PhasesOk(s) && SlotsOk(s) && TasksOk(s) && TimeoutsOk(s) && RepliesOk(s)
  }
}
