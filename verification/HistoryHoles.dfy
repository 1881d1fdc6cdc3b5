/** What becomes of a window with a hole: reads that start below a window may leave
    one, and then nothing the server does ever closes it. Here reads may start
    anywhere; which runs of such reads keep the history exact is stated at the end. */
module HistoryHoles {
  import opened Sequences
  import opened Table
  import opened History
  import opened HistoryInvariant
  import opened HistoryRuns
  import opened HistoryTheorems

  /** The steps of the history machine with reads of any bound. */
  predicate Possible(s: System, a: Action) {
    if a.ReadStart? then s.reader.NoRead? else History.Enabled(s, a)
  }

  function Proceed(s: System, a: Action): System
    requires Possible(s, a)
  {
    if a.ReadStart? then Started(s, a.ch, a.bound, a.limit) else History.Step(s, a)
  }

  predicate Proceeds(s: System, actions: seq<Action>)
    decreases |actions|
  {
    actions == [] || (Possible(s, actions[0]) && Proceeds(Proceed(s, actions[0]), actions[1..]))
  }

  function After(s: System, actions: seq<Action>): System
    requires Proceeds(s, actions)
    decreases |actions|
  {
    if actions == [] then s else After(Proceed(s, actions[0]), actions[1..])
  }

  predicate KeysOk(cache: map<nat, Message>) {
    forall id | id in cache :: cache[id].id == id
  }

  /** The window begins before a message of the table that it lacks. */
  predicate Gaping(log: Log, id: nat) {
    Ascending(log.ids) && log.ids != [] && log.ids[0] < id && id !in log.ids
  }

  /** A message of the table that the channel's window skips and that no read of
      the channel under way is about to bring back. */
  ghost predicate Hole(s: System, ch: nat, lost: Message) {
    && Ordered(s.store.rows) && KeysOk(s.store.cache)
    && lost in s.store.rows && lost.channelId == ch && lost.id < s.store.nextId
    && ch in s.store.logs && Gaping(s.store.logs[ch], lost.id)
    && (s.reader.Reading? && s.reader.ch == ch ==> lost.id !in Ids(s.reader.fetched) + s.reader.plan.cached)
  }

  // --------------------------------------------------------- what closes no hole

  lemma {:induction false} InsertRowsKeep(rows: seq<Message>, batch: seq<Message>)
    requires Ordered(rows) && InsertRows(rows, batch).Some?
    ensures Ordered(InsertRows(rows, batch).value)
    ensures forall m | m in rows :: m in InsertRows(rows, batch).value
  {
    if batch != [] {
      var front := InsertRows(rows, batch[..|batch| - 1]).value;
      InsertRowsKeep(rows, batch[..|batch| - 1]);
      InsertRowPlaces(front, batch[|batch| - 1]);
    }
  }

  /** A new message goes behind the window. */
  lemma CreateKeepsHole(s: System, ch: nat, lost: Message, a: Action)
    requires Hole(s, ch, lost) && a.Create? && Possible(s, a)
    ensures Hole(Proceed(s, a), ch, lost)
  {
    hide Ordered;
  }

  /** What a read starting anywhere plans does not hold the message. */
  lemma PlanMisses(rows: seq<Message>, ch: nat, log: Log, bound: nat, limit: nat, id: nat)
    requires Ordered(rows) && Gaping(log, id)
    ensures var plan := PlanRead(log, bound, limit); id !in Ids(FetchRows(rows, ch, plan)) + plan.cached
  {
    if log.ids[0] < bound {
      UnwindowedIsMissed(rows, ch, log, bound, limit, id);
    } else {
      QueryIsLatestPage(rows, ch, bound, limit);
      hide Query;
    }
  }

  lemma StartKeepsHole(s: System, ch: nat, lost: Message, a: Action)
    requires Hole(s, ch, lost) && a.ReadStart? && Possible(s, a)
    ensures Hole(Proceed(s, a), ch, lost)
  {
    PlanMisses(s.store.rows, ch, s.store.logs[ch], a.bound, a.limit, lost.id);
    hide PlanRead, FetchRows, Ordered, Gaping, KeysOk;
  }

  lemma WidenedGaping(ids: seq<nat>, complete: bool, incoming: seq<nat>, id: nat)
    requires Gaping(Log(ids, complete), id) && id !in incoming
    ensures forall c :: Gaping(Log(AssignIds(ids, incoming), c), id)
  {
    AssignIdsIsUnion(ids, incoming);
    hide AssignIds;
    var r := AssignIds(ids, incoming);
    assert ids[0] in r;
    var i :| 0 <= i < |r| && r[i] == ids[0];
  }

  lemma EndKeepsHole(s: System, ch: nat, lost: Message)
    requires Hole(s, ch, lost) && Possible(s, ReadEnd)
    ensures Hole(Proceed(s, ReadEnd), ch, lost)
  {
    var log := s.store.logs[ch];
    if s.reader.ch == ch {
      assert lost.id !in Ids(s.reader.fetched);
      WidenedGaping(log.ids, log.complete, Ids(s.reader.fetched), lost.id);
    }
    hide Gaping, Ordered, AssignIds, KeysOk, Ids;
  }

  lemma RowKeepsHole(s: System, ch: nat, lost: Message)
    requires Hole(s, ch, lost) && Possible(s, ReadRow)
    ensures Hole(Proceed(s, ReadRow), ch, lost)
  {
    hide Gaping, Ordered, Ids;
  }

  lemma FlushKeepsHole(s: System, ch: nat, lost: Message, a: Action)
    requires Hole(s, ch, lost) && (a.Swap? || a.Commit? || a.Publish?) && Possible(s, a)
    ensures Hole(Proceed(s, a), ch, lost)
  {
    if a.Commit? && InsertRows(s.store.rows, s.flush.batch).Some? { InsertRowsKeep(s.store.rows, s.flush.batch); }
    hide Gaping, Ordered, InsertRows, Ids, KeysOk;
  }

  lemma StepKeepsHole(s: System, ch: nat, lost: Message, a: Action)
    requires Hole(s, ch, lost) && Possible(s, a)
    ensures Hole(Proceed(s, a), ch, lost)
  {
    hide Hole, Possible, Proceed;
    match a
    case Create(_, _, _) => CreateKeepsHole(s, ch, lost, a);
    case ReadStart(_, _, _) => StartKeepsHole(s, ch, lost, a);
    case ReadRow => RowKeepsHole(s, ch, lost);
    case ReadEnd => EndKeepsHole(s, ch, lost);
    case _ => FlushKeepsHole(s, ch, lost, a);
  }

  lemma {:induction false} RunKeepsHole(s: System, ch: nat, lost: Message, actions: seq<Action>)
    requires Hole(s, ch, lost) && Proceeds(s, actions)
    ensures Hole(After(s, actions), ch, lost)
    decreases |actions|
  {
    hide Hole, Possible, Proceed;
    if actions != [] {
      StepKeepsHole(s, ch, lost, actions[0]);
      RunKeepsHole(Proceed(s, actions[0]), ch, lost, actions[1..]);
    }
  }

  // -------------------------------------------------------------------- theorems

  /** Once a window has a hole, then in every continuation of creations, flush
      steps and reads of any bound the lost message never enters the window again,
      although it stays in the table, and every read of the channel whose page
      should hold it returns something else. */
  lemma HoleIsForever(s: System, ch: nat, lost: Message, actions: seq<Action>)
    requires Hole(s, ch, lost) && Proceeds(s, actions)
    ensures var t := After(s, actions);
      && lost in t.store.rows && ch in t.store.logs && lost.id !in t.store.logs[ch].ids
      && (t.reader.Reading? && t.reader.ch == ch ==>
            lost !in EndPage(t)
            && (lost in Query(Written(t), ch, t.reader.bound, t.reader.limit) ==>
                  EndPage(t) != Query(Written(t), ch, t.reader.bound, t.reader.limit)))
  {
    RunKeepsHole(s, ch, lost, actions);
    var t := After(s, actions);
    hide After, Proceeds, Query, Written;
    if t.reader.Reading? { LookupWithin(t.store.cache, Ids(t.reader.fetched) + t.reader.plan.cached); }
    hide Lookup, Ids;
  }

  lemma {:induction false} AssignKeepsNextId(st: Store, ms: seq<Message>)
    ensures AssignMessages(st, ms).nextId == st.nextId
  {
    if ms != [] { AssignKeepsNextId(st, ms[..|ms| - 1]); }
  }

  lemma ReadKeepsNextId(st: Store, ch: nat, bound: nat, limit: nat)
    ensures ReadStore(st, ch, bound, limit).nextId == st.nextId
  {
    AssignKeepsNextId(st, FetchRows(st.rows, ch, PlanFor(st, ch, bound, limit)));
    hide PlanFor, FetchRows, AssignMessages, AssignIds;
  }

  /** The window after a read that leaves a gap and finds something below it. */
  lemma GapGapes(c: seq<Message>, k: nat, log: Log, bound: nat, n: nat, limit: nat, complete: bool)
    requires WindowOf(c, k, log.ids) && CutAt(c, bound, n) && 0 < n < k && limit > 0
    ensures Gaping(Log(AssignIds(log.ids, Ids(Slice(c, n, limit))), complete), c[n].id)
  {
    var fetched := Slice(c, n, limit);
    GapStaysOpen(c, k, log, bound, n, limit);
    assert Ascending(log.ids);
    AssignIdsIsUnion(log.ids, Ids(fetched));
    hide AssignIds;
    var ids := AssignIds(log.ids, Ids(fetched));
    assert Ids(fetched)[0] in ids && Ids(fetched)[0] < c[n].id;
    var i :| 0 <= i < |ids| && ids[i] == Ids(fetched)[0];
  }

  /** A read leaves such a hole when it asks for something, leaves a gap, and some
      message of the channel lies below its bound. */
  lemma GapLeavesHole(s: System, ch: nat, bound: nat, limit: nat, below: Message) returns (lost: Message)
    requires Inv(s) && s.reader.NoRead? && ch in s.store.logs && limit > 0
    requires !Gapless(Written(s), ch, s.store.logs[ch], bound)
    requires below in Channel(Written(s), ch) && below.id < bound
    ensures Hole(s.(store := ReadStore(s.store, ch, bound, limit)), ch, lost)
  {
    hide Written, Channel, AssignIds, FetchRows, Gapless, CacheOk, WatermarkOk, ReaderOk, ReadStore, PlanRead, CountBelow;
    var w, rows, log := Written(s), s.store.rows, s.store.logs[ch];
    var c, r := Channel(w, ch), Channel(rows, ch);
    var n := CountBelow(c, bound);
    GappedFetch(s, ch, bound, limit);
    lost := c[n];
    SomethingBelow(c, bound, n, below);
    TableIsWritten(s);
    ChannelPrefix(w, rows, ch);
    TableOrdered(s);
    ChannelSpec(rows, ch);
    assert r[n] in r && r[n] == c[n];
    ChannelSpec(w, ch);
    ReadLog(s, ch, bound, limit, Slice(c, n, limit));
    ReadMovesNothing(s, ch, bound, limit);
    ReadKeepsNextId(s.store, ch, bound, limit);
    KeysAfterRead(s, ch, bound, limit);
    GapGapes(c, |c| - |log.ids|, log, bound, n, limit, log.complete || limit > |Slice(c, n, limit)|);
    hide LogOk, Ordered, Gaping, LogsOk, KeysOk;
    assert lost in w;
  }

  lemma SomethingBelow(c: seq<Message>, bound: nat, n: nat, below: Message)
    requires CutAt(c, bound, n) && Ordered(c) && below in c && below.id < bound
    ensures 0 < n
  {
  }

  lemma KeysAfterRead(s: System, ch: nat, bound: nat, limit: nat)
    requires Inv(s)
    ensures KeysOk(ReadStore(s.store, ch, bound, limit).cache)
  {
    hide ReadStore, WrittenOk, WatermarkOk, LogsOk, ReaderOk, Written;
    ReadKeepsKeys(s.store, ch, bound, limit);
  }

  /** On 102 messages of one channel, right after starting: the read of one message
      before id 1 leaves such a hole, so in every continuation some message of the
      table stays out of the window and out of every page. */
  lemma GapExampleIsForever(actions: seq<Action>) returns (lost: Message)
    requires var s := Start(Numbered(102), [1]);
      Proceeds(s.(store := ReadStore(s.store, 1, 1, 1)), actions)
    ensures var s := Start(Numbered(102), [1]);
      var t := After(s.(store := ReadStore(s.store, 1, 1, 1)), actions);
      && lost in t.store.rows && 1 in t.store.logs && lost.id !in t.store.logs[1].ids
      && (t.reader.Reading? && t.reader.ch == 1 ==> lost !in EndPage(t))
  {
    var s := Start(Numbered(102), [1]);
    GapExampleState();
    hide Start, ReadStore, Inv, Written, Channel, Gapless, Numbered, Proceeds, After;
    lost := GapLeavesHole(s, 1, 1, 1, Message(0, 1, 1, ""));
    HoleIsForever(s.(store := ReadStore(s.store, 1, 1, 1)), 1, lost, actions);
  }

  lemma GapExampleState()
    ensures var s := Start(Numbered(102), [1]);
      && Inv(s) && s.reader.NoRead? && 1 in s.store.logs
      && !Gapless(Written(s), 1, s.store.logs[1], 1)
      && Message(0, 1, 1, "") in Channel(Written(s), 1)
  {
    var rows := Numbered(102);
    var s := Start(rows, [1]);
    NumberedSpec(102);
    assert ValidDatabase(rows, [1]);
    WarmChannels(rows, [1]);
    PrewarmEstablishes(rows, [1]);
    PageIsNewest(rows, 1);
    hide Numbered, Start, Prewarm, Channel, Inv, Query, PrewarmPage;
    assert s.store.logs[1].ids[0] == 2;
    assert rows[1].id == 1 && rows[0] == Message(0, 1, 1, "");
  }

  // ------------------------------------------------- exactly which runs stay exact

  /** Creations, flush steps and uninterrupted reads of any bound. */
  datatype Op = Move(a: Action) | Read(ch: nat, bound: nat, limit: nat)

  predicate Allowed(s: System, op: Op) {
    match op
    case Move(a) => (a.Create? || a.Swap? || a.Commit? || a.Publish?) && History.Enabled(s, a)
    case Read(_, _, _) => s.reader.NoRead?
  }

  function Perform(s: System, op: Op): System
    requires Allowed(s, op)
  {
    match op
    case Move(a) => History.Step(s, a)
    case Read(ch, bound, limit) => s.(store := ReadStore(s.store, ch, bound, limit))
  }

  predicate Performs(s: System, ops: seq<Op>)
    decreases |ops|
  {
    ops == [] || (Allowed(s, ops[0]) && Performs(Perform(s, ops[0]), ops[1..]))
  }

  /** All messages after an operation, given those before it. */
  function Grown(s: System, all: seq<Message>, op: Op): seq<Message> {
    if op.Move? && op.a.Create? then all + [Message(s.store.nextId, op.a.ch, op.a.user, op.a.content)] else all
  }

  /** An unlimited read from the greatest id returns the whole channel. */
  predicate ReadsWhole(s: System, all: seq<Message>, ch: nat, limit: nat) {
    |Channel(all, ch)| <= limit ==> ReadPage(s.store, ch, MAX_ID, limit) == Channel(all, ch)
  }

  ghost predicate Exact(s: System, all: seq<Message>) {
    forall ch, limit :: ReadsWhole(s, all, ch, limit)
  }

  ghost predicate StaysExact(s: System, all: seq<Message>, ops: seq<Op>)
    requires Performs(s, ops)
    decreases |ops|
  {
    Exact(s, all) && (ops == [] || StaysExact(Perform(s, ops[0]), Grown(s, all, ops[0]), ops[1..]))
  }

  predicate Leaves(s: System, op: Op) {
    op.Read? && op.ch in s.store.logs && !LeavesNoGap(Written(s), op.ch, s.store.logs[op.ch], op.bound, op.limit)
  }

  /** No read of the run leaves a gap. */
  predicate NoneLeaves(s: System, ops: seq<Op>)
    requires Performs(s, ops)
    decreases |ops|
  {
    ops == [] || (!Leaves(s, ops[0]) && NoneLeaves(Perform(s, ops[0]), ops[1..]))
  }

  lemma GoodIsExact(s: System)
    requires Inv(s) && s.reader.NoRead?
    ensures Exact(s, Written(s))
  {
    hide ReadPage, Query, Channel;
    forall ch, limit ensures ReadsWhole(s, Written(s), ch, limit) {
      ReadPageIsExact(s, ch, MAX_ID, limit);
      if |Channel(Written(s), ch)| <= limit {
        WrittenBelowMax(s);
        InvOrdered(s);
        WholeChannel(Written(s), ch, limit);
      }
    }
  }

  lemma WrittenBelowMax(s: System)
    requires Inv(s)
    ensures forall m | m in Written(s) :: m.id < MAX_ID
  {
    hide LogsOk, CacheOk, ReaderOk, WatermarkOk, Written;
  }

  lemma PerformKeeps(s: System, op: Op)
    requires Inv(s) && s.reader.NoRead? && Allowed(s, op) && !Leaves(s, op)
    ensures var t := Perform(s, op); Inv(t) && t.reader.NoRead? && Written(t) == Grown(s, Written(s), op)
  {
    match op
    case Move(a) =>
      StepKeeps(s, a);
      MoveReadsNothing(s, a);
      hide Inv, Written, History.Step;
      assert Written(s) + [] == Written(s);
    case Read(ch, bound, limit) =>
      hide Inv, Written, ReadStore, LeavesNoGap;
      ReadKeeps(s, ch, bound, limit);
  }

  lemma MoveReadsNothing(s: System, a: Action)
    requires s.reader.NoRead? && (a.Create? || a.Swap? || a.Commit? || a.Publish?) && History.Enabled(s, a)
    ensures History.Step(s, a).reader.NoRead?
  {
    hide InsertRows;
  }

  /** Right after a read that leaves a gap an unlimited read goes wrong. */
  lemma GapIsInexact(s: System, op: Op)
    requires Inv(s) && s.reader.NoRead? && Allowed(s, op) && Leaves(s, op)
    ensures !Exact(Perform(s, op), Written(s))
  {
    var n := |Channel(Written(s), op.ch)|;
    hide Inv, Written, ReadStore, ReadPage, Channel, Gapless;
    NextReadExactIffGapless(s, op.ch, op.bound, op.limit, n);
    assert !ReadsWhole(Perform(s, op), Written(s), op.ch, n);
  }

  lemma {:induction false} ExactIffNoneLeaves(s: System, ops: seq<Op>)
    requires Inv(s) && s.reader.NoRead? && Performs(s, ops)
    ensures StaysExact(s, Written(s), ops) <==> NoneLeaves(s, ops)
    decreases |ops|
  {
    GoodIsExact(s);
    if ops != [] {
      var op, rest := ops[0], ops[1..];
      var t := Perform(s, op);
      if Leaves(s, op) {
        GapIsInexact(s, op);
        assert Grown(s, Written(s), op) == Written(s);
        hide Perform, Allowed, Leaves, Exact, Written;
        assert !StaysExact(t, Written(s), rest);
      } else {
        PerformKeeps(s, op);
        hide Perform, Allowed, Leaves, Exact, Written, Inv, Grown;
        ExactIffNoneLeaves(t, rest);
      }
    }
  }

  /** In every run from a started server of creations, flush steps and reads of any
      bound: after every operation an unlimited read of any channel returns the
      database and the created messages of that channel, exactly when none of the
      reads leaves a gap between its bound and the window it meets. */
  lemma HistoryExactIffGapless(rows: seq<Message>, channels: seq<nat>, ops: seq<Op>)
    requires ValidDatabase(rows, channels) && Performs(Start(rows, channels), ops)
    ensures StaysExact(Start(rows, channels), rows, ops) <==> NoneLeaves(Start(rows, channels), ops)
  {
    PrewarmEstablishes(rows, channels);
    assert Start(rows, channels).reader.NoRead?;
    hide Start, Inv, Written;
    ExactIffNoneLeaves(Start(rows, channels), ops);
  }
}
