/** What every step of the history machine keeps, and what every read returns. */
module HistoryInvariant {
  import opened Sequences
  import opened Table
  import opened History

  // ---------------------------------------------------------------- invariant

  /** The ids are those of the channel's messages from the `k`-th on. */
  predicate WindowOf(c: seq<Message>, k: nat, ids: seq<nat>) {
    && Ordered(c) && k <= |c|
    && |ids| == |c| - k
    && (forall i | 0 <= i < |ids| :: ids[i] == c[k + i].id)
  }

  /** Closed window: the log holds exactly the last ids of its channel, the ids
      before it are in the table and below the watermark, a complete log holds
      the whole channel, and an empty log belongs to an empty channel. */
  predicate LogOk(written: seq<Message>, rows: seq<Message>, watermark: Option<nat>, ch: nat, log: Log) {
    var c := Channel(written, ch);
    var outside := |c| - |log.ids|;
    && 0 <= outside <= |Channel(rows, ch)|
    && WindowOf(c, outside, log.ids)
    && (forall i | 0 <= i < outside :: Covered(watermark, c[i].id))
    && (log.complete ==> outside == 0)
    && (log.ids == [] ==> c == [])
  }

  predicate LogsOk(s: System) {
    forall ch | ch in s.store.logs :: LogOk(Written(s), s.store.rows, s.store.watermark, ch, s.store.logs[ch])
  }

  predicate InWindow(logs: map<nat, Log>, m: Message) {
    m.channelId in logs && m.id in logs[m.channelId].ids
  }

  predicate CacheOk(written: seq<Message>, logs: map<nat, Log>, cache: map<nat, Message>) {
    && (forall m | m in written && InWindow(logs, m) :: m.id in cache && cache[m.id] == m)
    && (forall id | id in cache :: cache[id].id == id)
  }

  predicate WatermarkOk(s: System) {
    var rows := s.store.rows;
    && (s.store.watermark.Some? ==> rows != [] && s.store.watermark.value <= rows[|rows| - 1].id)
    && (s.flush.Committed? ==> rows != [] && s.flush.last == Some(rows[|rows| - 1].id))
    && (s.flush.Swapped? ==> s.flush.batch != [])
    && !s.flush.Aborted?
  }

  predicate WrittenOk(s: System) {
    && Ordered(Written(s))
    && s.store.nextId <= MAX_ID
    && (forall m | m in Written(s) :: m.id < s.store.nextId && m.channelId in s.store.logs)
  }

  predicate ReaderOk(s: System) {
    s.reader.Reading? ==>
      var r := s.reader;
      && r.done <= |r.fetched|
      && r.plan == PlanFor(s.store, r.ch, r.bound, r.limit)
      && (r.ch in s.store.logs ==> LeavesNoGap(Written(s), r.ch, s.store.logs[r.ch], r.bound, r.limit))
      && r.fetched == FetchRows(Written(s), r.ch, r.plan)
      && (forall i | 0 <= i < |r.fetched| :: Covered(s.store.watermark, r.fetched[i].id))
      && (forall i | 0 <= i < r.done :: r.fetched[i].id in s.store.cache && s.store.cache[r.fetched[i].id] == r.fetched[i])
  }

  predicate Inv(s: System) {
    WrittenOk(s) && WatermarkOk(s) && LogsOk(s) && CacheOk(Written(s), s.store.logs, s.store.cache) && ReaderOk(s)
  }

  // --------------------------------------------------- the arithmetic of a read
  // A read is seen through the channel `c` it reads, of which the table holds
  // the prefix `r`: `k` messages lie outside the window, `n` below the bound.

  /** The first `n` messages are those below the bound. */
  predicate CutAt(c: seq<Message>, bound: nat, n: nat) {
    && n <= |c|
    && (0 < n ==> c[n - 1].id < bound)
    && (n < |c| ==> bound <= c[n].id)
  }

  lemma {:induction false} LowerBoundAt(ids: seq<nat>, bound: nat, m: nat)
    requires Ascending(ids) && m <= |ids|
    requires 0 < m ==> ids[m - 1] < bound
    requires m < |ids| ==> bound <= ids[m]
    ensures LowerBound(ids, bound) == m
  {
    if ids != [] && m < |ids| {
      assert ids[m] <= ids[|ids| - 1];
      LowerBoundAt(ids[..|ids| - 1], bound, m);
    }
  }

  lemma WindowSlice(c: seq<Message>, k: nat, ids: seq<nat>, lo: nat, hi: nat)
    requires WindowOf(c, k, ids) && lo <= hi <= |ids|
    ensures ids[lo..hi] == Ids(c[k + lo..k + hi])
  {
  }

  lemma IdsOfConcat(a: seq<Message>, b: seq<Message>)
    ensures Ids(a + b) == Ids(a) + Ids(b)
  {
  }

  /** The last `limit` of the first `upto` messages. */
  function Slice(c: seq<Message>, upto: nat, limit: nat): seq<Message>
    requires upto <= |c|
  {
    c[upto - Min(upto, limit)..upto]
  }

  /** Querying the table or the whole channel gives the same slice, as long as
      the messages below the bound are in the table. */
  lemma FetchIsSlice(c: seq<Message>, r: seq<Message>, bound: nat, n: nat, limit: nat)
    requires Ordered(c) && r <= c && n <= |r|
    requires CutAt(c, bound, n)
    ensures LastN(Below(r, bound), limit) == LastN(Below(c, bound), limit) == Slice(c, n, limit)
  {
    OrderedSlice(c, 0, |r|);
    assert r == c[..|r|];
    BelowIsPrefix(c, bound, n);
    BelowIsPrefix(r, bound, n);
    assert c[..n] == r[..n];
  }

  function Fetched(c: seq<Message>, plan: Plan): seq<Message> {
    match plan.fetch
    case None => []
    case Some(f) => LastN(Below(c, f.bound), f.limit)
  }

  /** Below the window the plan of a read is one query. */
  lemma PlanBelowWindow(c: seq<Message>, k: nat, log: Log, bound: nat, n: nat, limit: nat)
    requires WindowOf(c, k, log.ids) && CutAt(c, bound, n)
    requires n <= k && limit > 0
    ensures PlanRead(log, bound, limit) == Plan(Some(Fetch(bound, limit)), [])
  {
    if log.ids != [] {
      assert log.ids[0] == c[k].id;
      assert c[n].id <= c[k].id;
    }
  }

  /** Inside the window it takes the newest messages from the window and the
      others, unless the log is complete, from the table. */
  lemma PlanInWindow(c: seq<Message>, k: nat, log: Log, bound: nat, n: nat, limit: nat)
    requires WindowOf(c, k, log.ids) && CutAt(c, bound, n)
    requires k < n && limit > 0
    ensures var taken := Min(n - k, limit);
      PlanRead(log, bound, limit) == Plan(
        if log.complete || limit <= taken then None else Some(Fetch(c[k].id, limit - taken)),
        Ids(c[n - taken..n]))
  {
    var available := n - k;
    var taken := Min(available, limit);
    assert LowerBound(log.ids, bound) == available by {
      LowerBoundAt(log.ids, bound, available);
    }
    assert log.ids[0] == c[k].id && c[k].id <= c[n - 1].id;
    WindowSlice(c, k, log.ids, available - taken, available);
    assert log.ids[available - taken] == c[n - taken].id;
  }

  /** Either way the ids are those of the last `limit` messages below the bound,
      and the table answers as the whole channel would. */
  lemma PlanGivesPage(c: seq<Message>, r: seq<Message>, k: nat, log: Log, bound: nat, n: nat, limit: nat)
    requires WindowOf(c, k, log.ids) && CutAt(c, bound, n)
    requires r <= c && k <= |r|
    requires log.complete ==> k == 0
    ensures Fetched(r, PlanRead(log, bound, limit)) == Fetched(c, PlanRead(log, bound, limit))
    ensures Ids(Fetched(r, PlanRead(log, bound, limit))) + PlanRead(log, bound, limit).cached == Ids(Slice(c, n, limit))
  {
    hide Below;
    if limit == 0 {
    } else if n <= k {
      hide PlanRead;
      PlanBelowWindow(c, k, log, bound, n, limit);
      FetchIsSlice(c, r, bound, n, limit);
    } else {
      WindowPlanGivesPage(c, r, k, log, bound, n, limit);
    }
  }

  lemma WindowPlanGivesPage(c: seq<Message>, r: seq<Message>, k: nat, log: Log, bound: nat, n: nat, limit: nat)
    requires WindowOf(c, k, log.ids) && CutAt(c, bound, n)
    requires r <= c && k <= |r|
    requires log.complete ==> k == 0
    requires k < n && limit > 0
    ensures Fetched(r, PlanRead(log, bound, limit)) == Fetched(c, PlanRead(log, bound, limit))
    ensures Ids(Fetched(r, PlanRead(log, bound, limit))) + PlanRead(log, bound, limit).cached == Ids(Slice(c, n, limit))
  {
    hide PlanRead, Below, Ids;
    PlanInWindow(c, k, log, bound, n, limit);
    if !log.complete && n - k < limit {
      FetchIsSlice(c, r, c[k].id, k, limit - (n - k));
      SliceSplits(c, k, n, limit);
    } else {
      assert Slice(c, n, limit) == c[n - Min(n - k, limit)..n];
    }
  }

  lemma SliceSplits(c: seq<Message>, k: nat, n: nat, limit: nat)
    requires k <= n <= |c| && n - k <= limit
    ensures Ids(Slice(c, k, limit - (n - k))) + Ids(c[k..n]) == Ids(Slice(c, n, limit))
  {
    assert Slice(c, k, limit - (n - k)) + c[k..n] == Slice(c, n, limit);
    IdsOfConcat(Slice(c, k, limit - (n - k)), c[k..n]);
  }

  /** Rows fetched from just below the window extend it: it stays a suffix, and
      a short answer means that the whole channel is in it. */
  lemma FetchExtendsWindow(c: seq<Message>, k: nat, ids: seq<nat>, limit: nat)
    requires WindowOf(c, k, ids)
    ensures var f := Slice(c, k, limit);
      WindowOf(c, k - |f|, AssignIds(ids, Ids(f))) && (limit > |f| ==> |f| == k)
  {
    var f := Slice(c, k, limit);
    assert Ids(f) + ids == Ids(c)[k - |f|..];
    AssignIdsInFront(ids, Ids(f));
  }

  // ------------------------------------------------------------- a read's fetch

  lemma ChannelPrefix(written: seq<Message>, rows: seq<Message>, ch: nat)
    requires rows <= written
    ensures Channel(rows, ch) <= Channel(written, ch)
  {
    assert written == rows + written[|rows|..];
    ChannelOfConcat(rows, written[|rows|..], ch);
  }

  /** Where the fetched rows lie: below the window, and directly below it when
      no message separates the bound from the window. */
  lemma FetchLocated(c: seq<Message>, r: seq<Message>, k: nat, log: Log, bound: nat, n: nat, limit: nat) returns (upto: nat)
    requires WindowOf(c, k, log.ids) && CutAt(c, bound, n)
    requires r <= c && k <= |r|
    requires log.complete ==> k == 0
    ensures upto == Min(n, k)
    ensures var plan := PlanRead(log, bound, limit);
      plan.fetch.Some? ==> Fetched(r, plan) == Slice(c, upto, plan.fetch.value.limit)
    ensures limit > 0 && n <= k ==> PlanRead(log, bound, limit).fetch == Some(Fetch(bound, limit))
  {
    upto := Min(n, k);
    if limit == 0 {
    } else if n <= k {
      PlanBelowWindow(c, k, log, bound, n, limit);
      FetchIsSlice(c, r, bound, n, limit);
    } else {
      PlanInWindow(c, k, log, bound, n, limit);
      if limit > n - k {
        FetchIsSlice(c, r, c[k].id, k, limit - (n - k));
      }
    }
  }

  lemma GaplessCut(written: seq<Message>, ch: nat, c: seq<Message>, k: nat, log: Log, bound: nat, n: nat)
    requires c == Channel(written, ch)
    requires WindowOf(c, k, log.ids) && CutAt(c, bound, n)
    requires log.ids == [] ==> c == []
    ensures Gapless(written, ch, log, bound) <==> k <= n
  {
    if n < k {
      assert log.ids[0] == c[k].id;
      assert bound <= c[n].id < c[k].id;
    } else {
      forall i | 0 <= i < |c| && bound <= c[i].id ensures log.ids == [] || log.ids[0] <= c[i].id {
        assert n <= i;
        assert log.ids[0] == c[k].id;
      }
    }
  }

  // ---------------------------------------------------------- steps of a flush

  /** Steps that move messages between the table, the batch and the pending
      list keep the invariant, as long as the table and the watermark grow. */
  lemma MovingKeeps(s: System, t: System)
    requires Inv(s)
    requires Written(t) == Written(s) && s.store.rows <= t.store.rows
    requires t.store == s.store.(rows := t.store.rows, watermark := t.store.watermark, pending := t.store.pending)
    requires t.reader == s.reader
    requires s.store.watermark.Some? ==> t.store.watermark.Some? && s.store.watermark.value <= t.store.watermark.value
    requires WatermarkOk(t)
    ensures Inv(t)
  {
    forall ch | ch in t.store.logs
      ensures LogOk(Written(t), t.store.rows, t.store.watermark, ch, t.store.logs[ch])
    {
      assert LogOk(Written(s), s.store.rows, s.store.watermark, ch, s.store.logs[ch]);
      ChannelPrefix(t.store.rows, s.store.rows, ch);
    }
  }

  lemma SwapKeeps(s: System)
    requires Inv(s) && Enabled(s, Swap)
    ensures Inv(Step(s, Swap)) && Written(Step(s, Swap)) == Written(s)
  {
    assert Written(Step(s, Swap)) == Written(s);
    MovingKeeps(s, Step(s, Swap));
  }

  /** The system after a commit that the database accepted. */
  function Appended(s: System): System
    requires s.flush.Swapped?
  {
    s.(store := s.store.(rows := s.store.rows + s.flush.batch), flush := Committed(LastId(s.flush.batch)))
  }

  /** The batch continues the table's key order, so no insert is refused. */
  lemma CommitIsAppend(s: System)
    requires Ordered(Written(s)) && Enabled(s, Commit)
    ensures Step(s, Commit) == Appended(s)
  {
    var rows, batch := s.store.rows, s.flush.batch;
    assert rows + batch == Written(s)[..|rows + batch|];
    OrderedSlice(Written(s), 0, |rows + batch|);
    InsertRowsAppends(rows, batch);
  }

  lemma AppendMovesBatch(s: System)
    requires s.flush.Swapped?
    ensures Written(Appended(s)) == Written(s)
  {
  }

  lemma AppendRaisesLast(w: seq<Message>, rows: seq<Message>, batch: seq<Message>)
    requires Ordered(w) && rows + batch <= w && batch != []
    ensures rows != [] ==> rows[|rows| - 1].id < batch[|batch| - 1].id
  {
    if rows != [] {
      assert w[|rows| - 1] == (rows + batch)[|rows| - 1] == rows[|rows| - 1];
      assert w[|rows + batch| - 1] == (rows + batch)[|rows + batch| - 1] == batch[|batch| - 1];
    }
  }

  lemma AppendKeeps(s: System)
    requires Inv(s) && s.flush.Swapped?
    ensures Inv(Appended(s)) && Written(Appended(s)) == Written(s)
  {
    hide LogOk, CacheOk, ReaderOk;
    AppendMovesBatch(s);
    AppendRaisesLast(Written(s), s.store.rows, s.flush.batch);
    MovingKeeps(s, Appended(s));
  }

  lemma CommitKeeps(s: System)
    requires Inv(s) && Enabled(s, Commit)
    ensures Inv(Step(s, Commit)) && Written(Step(s, Commit)) == Written(s)
  {
    AppendKeeps(s);
    CommitIsAppend(s);
  }

  lemma PublishKeeps(s: System)
    requires Inv(s) && Enabled(s, Publish)
    ensures Inv(Step(s, Publish)) && Written(Step(s, Publish)) == Written(s)
  {
    hide LogOk, CacheOk, ReaderOk, WrittenOk;
    var t := Step(s, Publish);
    assert Written(t) == Written(s);
    hide Written;
    MovingKeeps(s, t);
  }
}
