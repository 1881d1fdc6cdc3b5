/** The server's message history as a state machine: per-channel windows of
    cached ids, a shared message cache, a pending list that another thread
    flushes in three steps, and reads that are served from the cache, from the
    database or from both. */
module History {
  import opened Sequences
  import opened Table

  const PREWARM_COUNT: nat := 100
  const ID_RANGE: nat := 0x1_0000_0000

  // ------------------------------------------------------------------ state

  /** A channel's window of cached ids. */
  datatype Log = Log(ids: seq<nat>, complete: bool)

  datatype Store = Store(
    rows: seq<Message>,
    nextId: nat,
    watermark: Option<nat>,
    cache: map<nat, Message>,
    pending: seq<Message>,
    logs: map<nat, Log>)

  /** Where the flushing thread stands: between the swap and the commit it
      holds the batch, between the commit and the publication of the watermark
      it holds the id the database returned. `Aborted`: the commit was refused. */
  datatype Flush = Idle | Swapped(batch: seq<Message>) | Committed(last: Option<nat>) | Aborted

  datatype Fetch = Fetch(bound: nat, limit: nat)

  /** What a read takes from the database and what from the window. */
  datatype Plan = Plan(fetch: Option<Fetch>, cached: seq<nat>)

  /** Where the application thread stands in a read. */
  datatype Reader =
    | NoRead
    | Reading(ch: nat, bound: nat, limit: nat, plan: Plan, fetched: seq<Message>, done: nat)

  datatype System = System(store: Store, flush: Flush, reader: Reader)

  // ----------------------------------------------------- operations on the store

  function LogOf(st: Store, ch: nat): Log {
    if ch in st.logs then st.logs[ch] else Log([], false)
  }

  predicate Covered(watermark: Option<nat>, id: nat) {
    watermark.Some? && id <= watermark.value
  }

  function AppendId(ids: seq<nat>, id: nat): seq<nat> {
    if ids != [] && id <= ids[|ids| - 1] then ids else ids + [id]
  }

  function AssignMessage(st: Store, m: Message): Store {
    st.(cache := st.cache[m.id := m],
        pending := if Covered(st.watermark, m.id) then st.pending else st.pending + [m])
  }

  function AssignMessages(st: Store, ms: seq<Message>): (r: Store)
    ensures r.logs == st.logs
  {
    if ms == [] then st
    else AssignMessage(AssignMessages(st, ms[..|ms| - 1]), ms[|ms| - 1])
  }

  function CacheMessages(st: Store, ch: nat, ms: seq<Message>): Store {
    if ms == [] then st
    else
      var log := LogOf(st, ch);
      AssignMessages(st, ms).(logs := st.logs[ch := log.(ids := AssignIds(log.ids, Ids(ms)))])
  }

  function NewMessage(st: Store, ch: nat, user: nat, content: string): Message {
    Message(st.nextId, ch, user, content)
  }

  function CreateMessage(st: Store, ch: nat, user: nat, content: string): Store {
    var m := NewMessage(st, ch, user, content);
    var log := LogOf(st, ch);
    AssignMessage(
      st.(nextId := (st.nextId + 1) % ID_RANGE,
          logs := st.logs[ch := log.(ids := AppendId(log.ids, m.id))]),
      m)
  }

  /** Number of leading ids below `bound` in an ascending list. */
  function LowerBound(ids: seq<nat>, bound: nat): (n: nat)
    ensures n <= |ids|
  {
    if ids == [] then 0
    else if ids[|ids| - 1] < bound then |ids|
    else LowerBound(ids[..|ids| - 1], bound)
  }

  function PlanRead(log: Log, bound: nat, limit: nat): Plan {
    if limit == 0 then Plan(None, [])
    else if log.ids == [] || bound <= log.ids[0] then Plan(Some(Fetch(bound, limit)), [])
    else
      var available := LowerBound(log.ids, bound);
      if available == 0 then Plan(Some(Fetch(bound, limit)), [])
      else
        var taken := Min(available, limit);
        var cached := log.ids[available - taken..available];
        if log.complete || limit <= taken then Plan(None, cached)
        else Plan(Some(Fetch(log.ids[available - taken], limit - taken)), cached)
  }

  function FetchRows(rows: seq<Message>, ch: nat, plan: Plan): seq<Message> {
    match plan.fetch
    case None => []
    case Some(f) => Query(rows, ch, f.bound, f.limit)
  }

  /** The window after the fetched rows have been cached. */
  function FinishRead(st: Store, ch: nat, plan: Plan, fetched: seq<Message>): Store {
    match plan.fetch
    case None => st
    case Some(f) =>
      var log := LogOf(st, ch);
      st.(logs := st.logs[ch := Log(AssignIds(log.ids, Ids(fetched)), log.complete || f.limit > |fetched|)])
  }

  /** The cached messages of the ids; ids without a cached message are skipped. */
  function Lookup(cache: map<nat, Message>, ids: seq<nat>): seq<Message> {
    if ids == [] then []
    else
      var id := ids[|ids| - 1];
      Lookup(cache, ids[..|ids| - 1]) + if id in cache then [cache[id]] else []
  }

  function PlanFor(st: Store, ch: nat, bound: nat, limit: nat): Plan {
    if ch in st.logs then PlanRead(st.logs[ch], bound, limit) else Plan(None, [])
  }

  /** A read that no other step interrupts: the store it leaves and its page. */
  function ReadStore(st: Store, ch: nat, bound: nat, limit: nat): Store {
    var plan := PlanFor(st, ch, bound, limit);
    var fetched := FetchRows(st.rows, ch, plan);
    FinishRead(AssignMessages(st, fetched), ch, plan, fetched)
  }

  function ReadPage(st: Store, ch: nat, bound: nat, limit: nat): seq<Message> {
    var plan := PlanFor(st, ch, bound, limit);
    var fetched := FetchRows(st.rows, ch, plan);
    Lookup(AssignMessages(st, fetched).cache, Ids(fetched) + plan.cached)
  }

  // ------------------------------------------------------------------ prewarm

  function LastId(rows: seq<Message>): Option<nat> {
    if rows == [] then None else Some(rows[|rows| - 1].id)
  }

  function StartStore(rows: seq<Message>): Store {
    Store(rows, if rows == [] then 0 else (rows[|rows| - 1].id + 1) % ID_RANGE, LastId(rows), map[], [], map[])
  }

  function PrewarmChannel(st: Store, ch: nat): Store {
    var page := Query(st.rows, ch, MAX_ID, PREWARM_COUNT);
    CacheMessages(st.(logs := st.logs[ch := LogOf(st, ch)]), ch, page)
  }

  function PrewarmChannels(st: Store, channels: seq<nat>): Store {
    if channels == [] then st
    else PrewarmChannel(PrewarmChannels(st, channels[..|channels| - 1]), channels[|channels| - 1])
  }

  function Prewarm(rows: seq<Message>, channels: seq<nat>): Store {
    PrewarmChannels(StartStore(rows), channels)
  }

  /** What the database holds when the server starts: rows in key order, ids
      below the reserved greatest id, and every message in a listed channel. */
  predicate ValidDatabase(rows: seq<Message>, channels: seq<nat>) {
    && Ordered(rows)
    && (forall m | m in rows :: m.id + 1 < MAX_ID && m.channelId in channels)
  }

  // -------------------------------------------------------------------- steps

  datatype Action =
    | Create(ch: nat, user: nat, content: string)
    | Swap
    | Commit
    | Publish
    | ReadStart(ch: nat, bound: nat, limit: nat)
    | ReadRow
    | ReadEnd

  /** Everything written so far: the table, the batch in flight, the pending list. */
  function Written(s: System): seq<Message> {
    s.store.rows + (if s.flush.Swapped? then s.flush.batch else []) + s.store.pending
  }

  /** No message of the channel lies between the bound and the window. */
  predicate Gapless(written: seq<Message>, ch: nat, log: Log, bound: nat) {
    var c := Channel(written, ch);
    forall i | 0 <= i < |c| && bound <= c[i].id :: log.ids == [] || log.ids[0] <= c[i].id
  }

  /** A read that asks for nothing, or whose bound leaves no such gap. */
  predicate LeavesNoGap(written: seq<Message>, ch: nat, log: Log, bound: nat, limit: nat) {
    limit == 0 || Gapless(written, ch, log, bound)
  }

  predicate Enabled(s: System, a: Action) {
    match a
    case Create(_, _, _) => s.reader.NoRead? && s.store.nextId < MAX_ID
    case Swap => s.flush.Idle? && s.store.pending != []
    case Commit => s.flush.Swapped?
    case Publish => s.flush.Committed?
    case ReadStart(ch, bound, limit) =>
      s.reader.NoRead? && (ch in s.store.logs ==> LeavesNoGap(Written(s), ch, s.store.logs[ch], bound, limit))
    case ReadRow => s.reader.Reading? && s.reader.done < |s.reader.fetched|
    case ReadEnd => s.reader.Reading? && s.reader.done == |s.reader.fetched|
  }

  /** The plan is made and its rows are queried at once. */
  function Started(s: System, ch: nat, bound: nat, limit: nat): System {
    var plan := PlanFor(s.store, ch, bound, limit);
    s.(reader := Reading(ch, bound, limit, plan, FetchRows(s.store.rows, ch, plan), 0))
  }

  function Step(s: System, a: Action): System
    requires Enabled(s, a)
  {
    var st := s.store;
    match a
    case Create(ch, user, content) => s.(store := CreateMessage(st, ch, user, content))
    case Swap => s.(store := st.(pending := []), flush := Swapped(st.pending))
    case Commit =>
      (match InsertRows(st.rows, s.flush.batch)
       case None => s.(flush := Aborted)
       case Some(rows) => s.(store := st.(rows := rows), flush := Committed(LastId(s.flush.batch))))
    case Publish => s.(store := st.(watermark := s.flush.last), flush := Idle)
    case ReadStart(ch, bound, limit) => Started(s, ch, bound, limit)
    case ReadRow =>
      s.(store := AssignMessage(st, s.reader.fetched[s.reader.done]), reader := s.reader.(done := s.reader.done + 1))
    case ReadEnd => s.(store := FinishRead(st, s.reader.ch, s.reader.plan, s.reader.fetched), reader := NoRead)
  }

  /** The page a read hands to its caller when it ends. */
  function EndPage(s: System): seq<Message>
    requires s.reader.Reading?
  {
    Lookup(s.store.cache, Ids(s.reader.fetched) + s.reader.plan.cached)
  }

  predicate Runs(s: System, actions: seq<Action>)
    decreases |actions|
  {
    actions == [] || (Enabled(s, actions[0]) && Runs(Step(s, actions[0]), actions[1..]))
  }

  function Exec(s: System, actions: seq<Action>): System
    requires Runs(s, actions)
    decreases |actions|
  {
    if actions == [] then s else Exec(Step(s, actions[0]), actions[1..])
  }

  /** The messages a run creates, numbered consecutively. */
  function Created(nextId: nat, actions: seq<Action>): seq<Message>
    decreases |actions|
  {
    if actions == [] then []
    else
      match actions[0]
      case Create(ch, user, content) => [Message(nextId, ch, user, content)] + Created(nextId + 1, actions[1..])
      case _ => Created(nextId, actions[1..])
  }
}
