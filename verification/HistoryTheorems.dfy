/** The history machine from a started server: prewarming establishes the
    invariant, every run gives exact history, and a read below the window is
    shown to be harmless exactly when it leaves no gap. */
module HistoryTheorems {
  import opened Sequences
  import opened Table
  import opened History
  import opened HistoryInvariant
  import opened HistoryRuns

  // -------------------------------------------------------------------- prewarm

  function Start(rows: seq<Message>, channels: seq<nat>): System {
    System(Prewarm(rows, channels), Idle, NoRead)
  }

  function PrewarmPage(rows: seq<Message>, ch: nat): seq<Message> {
    Query(rows, ch, MAX_ID, PREWARM_COUNT)
  }

  /** A store in the middle of prewarming. */
  ghost predicate Warming(st: Store, rows: seq<Message>, channels: seq<nat>) {
    && st == StartStore(rows).(cache := st.cache, logs := st.logs)
    && (forall ch :: ch in st.logs <==> ch in channels)
    && (forall ch | ch in st.logs :: st.logs[ch] == Log(Ids(PrewarmPage(rows, ch)), false))
    && CacheFrom(st.cache, rows)
    && (forall ch, m | ch in st.logs && m in PrewarmPage(rows, ch) :: m.id in st.cache)
  }

  /** Rows at or below the watermark are cached without being queued. */
  lemma {:induction false} AssignCovered(st: Store, rows: seq<Message>, ms: seq<Message>)
    requires forall m | m in ms :: Covered(st.watermark, m.id) && m in rows
    requires CacheFrom(st.cache, rows)
    ensures var r := AssignMessages(st, ms);
      && r == st.(cache := r.cache)
      && CacheFrom(r.cache, rows)
      && (forall id | id in st.cache :: id in r.cache)
      && (forall m | m in ms :: m.id in r.cache)
  {
    if ms != [] {
      AssignCovered(st, rows, ms[..|ms| - 1]);
      assert ms == ms[..|ms| - 1] + [ms[|ms| - 1]];
    }
  }

  lemma AssignSame(ids: seq<nat>, incoming: seq<nat>)
    requires Ascending(incoming) && (ids == [] || ids == incoming)
    ensures AssignIds(ids, incoming) == incoming
  {
    AssignIdsIsUnion(ids, incoming);
    AscendingUnique(AssignIds(ids, incoming), incoming);
  }

  lemma RowsCovered(rows: seq<Message>)
    requires Ordered(rows)
    ensures forall m | m in rows :: Covered(LastId(rows), m.id)
  {
  }

  ghost predicate CacheFrom(cache: map<nat, Message>, rows: seq<Message>) {
    forall id | id in cache :: cache[id] in rows && cache[id].id == id
  }

  /** Prewarming a channel caches its page and opens the window on it. */
  lemma WarmedStore(st: Store, rows: seq<Message>, ch: nat)
    requires Ordered(rows) && st.rows == rows && st.watermark == LastId(rows)
    requires CacheFrom(st.cache, rows)
    requires !LogOf(st, ch).complete && (LogOf(st, ch).ids == [] || LogOf(st, ch).ids == Ids(PrewarmPage(rows, ch)))
    ensures var r := PrewarmChannel(st, ch);
      && r == st.(cache := r.cache, logs := st.logs[ch := Log(Ids(PrewarmPage(rows, ch)), false)])
      && CacheFrom(r.cache, rows)
      && (forall id | id in st.cache :: id in r.cache)
      && (forall m | m in PrewarmPage(rows, ch) :: m.id in r.cache)
  {
    var page := PrewarmPage(rows, ch);
    var registered := st.(logs := st.logs[ch := LogOf(st, ch)]);
    PageCovered(rows, ch);
    AssignCovered(registered, rows, page);
    PageAscending(rows, ch);
    AssignSame(LogOf(st, ch).ids, Ids(page));
    CachedStore(st, ch, page);
    assert PrewarmChannel(st, ch) == CacheMessages(registered, ch, page);
    hide *;
  }

  lemma PageCovered(rows: seq<Message>, ch: nat)
    requires Ordered(rows)
    ensures forall m | m in PrewarmPage(rows, ch) :: Covered(LastId(rows), m.id) && m in rows
  {
    QueryIsLatestPage(rows, ch, MAX_ID, PREWARM_COUNT);
    RowsCovered(rows);
  }

  lemma PageAscending(rows: seq<Message>, ch: nat)
    requires Ordered(rows)
    ensures Ascending(Ids(PrewarmPage(rows, ch)))
  {
    QueryIsLatestPage(rows, ch, MAX_ID, PREWARM_COUNT);
  }

  lemma CachedStore(st: Store, ch: nat, page: seq<Message>)
    requires !LogOf(st, ch).complete && AssignIds(LogOf(st, ch).ids, Ids(page)) == Ids(page)
    requires LogOf(st, ch).ids == [] || LogOf(st, ch).ids == Ids(page)
    ensures var registered := st.(logs := st.logs[ch := LogOf(st, ch)]);
      CacheMessages(registered, ch, page) == AssignMessages(registered, page).(logs := st.logs[ch := Log(Ids(page), false)])
  {
    hide AssignIds;
    if page == [] {
      assert Ids(page) == [];
    }
  }

  lemma WarmChannel(st: Store, rows: seq<Message>, channels: seq<nat>, ch: nat)
    requires Ordered(rows) && Warming(st, rows, channels)
    ensures Warming(PrewarmChannel(st, ch), rows, channels + [ch])
  {
    hide PrewarmPage, PrewarmChannel, Ordered, LastId;
    WarmedStore(st, rows, ch);
  }

  lemma {:induction false} WarmChannels(rows: seq<Message>, channels: seq<nat>)
    requires Ordered(rows)
    ensures Warming(Prewarm(rows, channels), rows, channels)
  {
    hide PrewarmChannel, PrewarmPage, LastId;
    if channels == [] {
    } else {
      var front := channels[..|channels| - 1];
      WarmChannels(rows, front);
      assert channels == front + [channels[|channels| - 1]];
      WarmChannel(Prewarm(rows, front), rows, front, channels[|channels| - 1]);
    }
  }

  lemma LastNIsWindow(c: seq<Message>, n: nat)
    requires Ordered(c)
    ensures WindowOf(c, |c| - |LastN(c, n)|, Ids(LastN(c, n)))
  {
  }

  lemma PageIsNewest(rows: seq<Message>, ch: nat)
    requires Ordered(rows)
    requires forall m | m in rows :: m.id < MAX_ID
    ensures Ordered(Channel(rows, ch)) && PrewarmPage(rows, ch) == LastN(Channel(rows, ch), PREWARM_COUNT)
    ensures forall i | 0 <= i < |Channel(rows, ch)| :: Covered(LastId(rows), Channel(rows, ch)[i].id)
  {
    ChannelSpec(rows, ch);
    var c := Channel(rows, ch);
    RowsCovered(rows);
    hide Channel, LastId;
    forall i | 0 <= i < |c| ensures c[i].id < MAX_ID && Covered(LastId(rows), c[i].id) {
      assert c[i] in rows;
    }
    BelowIsPrefix(c, MAX_ID, |c|);
    assert c[..|c|] == c;
  }

  /** The newest rows of a channel are a closed window over it. */
  lemma PrewarmedLogOk(rows: seq<Message>, ch: nat)
    requires Ordered(rows)
    requires forall m | m in rows :: m.id < MAX_ID
    ensures LogOk(rows, rows, LastId(rows), ch, Log(Ids(PrewarmPage(rows, ch)), false))
  {
    hide PrewarmPage, Channel, LastId;
    PageIsNewest(rows, ch);
    LastNIsWindow(Channel(rows, ch), PREWARM_COUNT);
  }

  /** Prewarming over any database leaves a state in which the invariant holds. */
  lemma PrewarmEstablishes(rows: seq<Message>, channels: seq<nat>)
    requires ValidDatabase(rows, channels)
    ensures Inv(Start(rows, channels)) && Written(Start(rows, channels)) == rows
    ensures Start(rows, channels).store.nextId == if rows == [] then 0 else rows[|rows| - 1].id + 1
  {
    hide Prewarm, LogOk, CacheOk, PrewarmPage;
    var s := Start(rows, channels);
    WarmChannels(rows, channels);
    assert Written(s) == rows;
    assert WrittenOk(s) && WatermarkOk(s) by {
      if rows != [] { assert rows[|rows| - 1] in rows; }
    }
    assert Ordered(rows) && (forall m | m in rows :: m.id < MAX_ID) && ReaderOk(s);
    hide Written, Start, StartStore, WrittenOk, WatermarkOk, ReaderOk, ValidDatabase;
    PrewarmedCacheOk(s.store, rows, channels);
    forall ch | ch in s.store.logs ensures LogOk(rows, rows, s.store.watermark, ch, s.store.logs[ch]) {
      PrewarmedLogOk(rows, ch);
    }
  }

  lemma PrewarmedCacheOk(st: Store, rows: seq<Message>, channels: seq<nat>)
    requires Ordered(rows) && Warming(st, rows, channels)
    ensures CacheOk(rows, st.logs, st.cache)
  {
    forall m | m in rows && InWindow(st.logs, m) ensures m.id in st.cache && st.cache[m.id] == m {
      PrewarmedIsCached(st, rows, channels, m);
    }
  }

  lemma PrewarmedIsCached(st: Store, rows: seq<Message>, channels: seq<nat>, m: Message)
    requires Ordered(rows) && Warming(st, rows, channels)
    requires m in rows && InWindow(st.logs, m)
    ensures m.id in st.cache && st.cache[m.id] == m
  {
    var page := PrewarmPage(rows, m.channelId);
    QueryIsLatestPage(rows, m.channelId, MAX_ID, PREWARM_COUNT);
    hide Query, StartStore;
    assert m.id in Ids(page);
    PageIsCached(rows, page, st.cache, m);
  }

  lemma PageIsCached(rows: seq<Message>, page: seq<Message>, cache: map<nat, Message>, m: Message)
    requires Ordered(rows) && CacheFrom(cache, rows) && m in rows && m.id in Ids(page)
    requires forall p | p in page :: p in rows && p.id in cache
    ensures m.id in cache && cache[m.id] == m
  {
    var i :| 0 <= i < |page| && Ids(page)[i] == m.id;
    SameIdSameMessage(rows, m, page[i]);
    SameIdSameMessage(rows, m, cache[m.id]);
  }

  // ------------------------------------------------------------- exact history

  lemma InvOrdered(s: System)
    requires Inv(s)
    ensures Ordered(Written(s))
  {
    hide Written, LogsOk, CacheOk, ReaderOk, WatermarkOk;
  }

  /** A read about to end returns the page of `all`. */
  predicate EndsExactly(s: System, all: seq<Message>) {
    s.reader.Reading? && s.reader.done == |s.reader.fetched| ==>
      EndPage(s) == Query(all, s.reader.ch, s.reader.bound, s.reader.limit)
  }

  /** From a started server, over every run of creations, flush steps and reads
      that leave no gap: what has been written is the database followed by the
      created messages, each held exactly once; a finishing read returns the
      page of exactly that. */
  lemma HistoryIsExact(rows: seq<Message>, channels: seq<nat>, actions: seq<Action>, s: System, all: seq<Message>)
    requires ValidDatabase(rows, channels)
    requires Runs(Start(rows, channels), actions) && s == Exec(Start(rows, channels), actions)
    requires all == rows + Created(Start(rows, channels).store.nextId, actions)
    ensures Inv(s) && Written(s) == all && Ordered(all) && EndsExactly(s, all)
  {
    hide Start, Exec, Runs, Written, Query, EndPage, Inv, Created;
    PrewarmEstablishes(rows, channels);
    RunKeeps(Start(rows, channels), actions);
    InvOrdered(s);
    if Enabled(s, ReadEnd) { EndPageIsExact(s); }
  }

  /** The database never refuses a batch: no primary key is inserted twice. */
  lemma BatchesAreAccepted(rows: seq<Message>, channels: seq<nat>, actions: seq<Action>)
    requires ValidDatabase(rows, channels)
    requires Runs(Start(rows, channels), actions)
    ensures var s := Exec(Start(rows, channels), actions);
      !s.flush.Aborted?
      && (s.flush.Swapped? ==> InsertRows(s.store.rows, s.flush.batch) == Some(s.store.rows + s.flush.batch))
  {
    PrewarmEstablishes(rows, channels);
    RunKeeps(Start(rows, channels), actions);
    var s := Exec(Start(rows, channels), actions);
    hide Start, Exec, Runs;
    if s.flush.Swapped? {
      var n := |s.store.rows + s.flush.batch|;
      assert s.store.rows + s.flush.batch == Written(s)[..n];
      OrderedSlice(Written(s), 0, n);
      InsertRowsAppends(s.store.rows, s.flush.batch);
    }
  }

  // ------------------------------------------------------- uninterrupted reads

  lemma {:induction false} AssignFirst(st: Store, ms: seq<Message>)
    requires ms != []
    ensures AssignMessages(st, ms) == AssignMessages(AssignMessage(st, ms[0]), ms[1..])
  {
    if |ms| == 1 {
      assert AssignMessages(st, ms[..0]) == st;
    } else {
      var n := |ms| - 1;
      AssignFirst(st, ms[..n]);
      assert ms[..n][1..] == ms[1..][..n - 1];
    }
  }

  function Rows(n: nat): seq<Action> {
    if n == 0 then [] else [ReadRow] + Rows(n - 1)
  }

  lemma ExecCons(s: System, a: Action, rest: seq<Action>)
    requires Enabled(s, a) && Runs(Step(s, a), rest)
    ensures Runs(s, [a] + rest) && Exec(s, [a] + rest) == Exec(Step(s, a), rest)
  {
    hide Step, Enabled;
    assert ([a] + rest)[1..] == rest;
  }

  lemma StepRow(s: System)
    requires s.reader.Reading? && s.reader.done < |s.reader.fetched|
    ensures Enabled(s, ReadRow)
    ensures var m := s.reader.fetched[s.reader.done];
      Step(s, ReadRow) == s.(store := AssignMessage(s.store, m), reader := s.reader.(done := s.reader.done + 1))
  {
    hide AssignMessage;
  }

  /** The steps of a read in the middle of caching, when nothing interrupts it. */
  lemma {:induction false} RowsThenEnd(s: System)
    requires s.reader.Reading? && s.reader.done <= |s.reader.fetched|
    ensures var r := s.reader;
      var rest := Rows(|r.fetched| - r.done) + [ReadEnd];
      && Runs(s, rest)
      && Exec(s, rest) == s.(store := FinishRead(AssignMessages(s.store, r.fetched[r.done..]), r.ch, r.plan, r.fetched), reader := NoRead)
    decreases |s.reader.fetched| - s.reader.done
  {
    hide FinishRead, AssignMessage, AssignMessages;
    var r := s.reader;
    var rest := Rows(|r.fetched| - r.done) + [ReadEnd];
    if r.done == |r.fetched| {
      NoRowsLeft(s);
    } else {
      StepRow(s);
      AssignFirst(s.store, r.fetched[r.done..]);
      var later := Rows(|r.fetched| - r.done - 1) + [ReadEnd];
      assert rest == [ReadRow] + later;
      assert r.fetched[r.done..][1..] == r.fetched[r.done + 1..];
      hide Step, Enabled, Exec, Runs, Rows;
      RowsThenEnd(Step(s, ReadRow));
      ExecCons(s, ReadRow, later);
    }
  }

  lemma NoRowsLeft(s: System)
    requires s.reader.Reading? && s.reader.done == |s.reader.fetched|
    ensures var r := s.reader;
      var rest := Rows(|r.fetched| - r.done) + [ReadEnd];
      && Runs(s, rest)
      && Exec(s, rest) == s.(store := FinishRead(AssignMessages(s.store, r.fetched[r.done..]), r.ch, r.plan, r.fetched), reader := NoRead)
  {
    hide FinishRead, AssignMessage;
    var r := s.reader;
    assert Rows(|r.fetched| - r.done) + [ReadEnd] == [ReadEnd] + [];
    assert r.fetched[r.done..] == [];
    ExecCons(s, ReadEnd, []);
  }

  /** The steps of a whole read. */
  function ReadSteps(s: System, ch: nat, bound: nat, limit: nat): seq<Action> {
    [ReadStart(ch, bound, limit)] + (Rows(|FetchRows(s.store.rows, ch, PlanFor(s.store, ch, bound, limit))|) + [ReadEnd])
  }

  lemma ReadStepsRun(s: System, ch: nat, bound: nat, limit: nat)
    requires Enabled(s, ReadStart(ch, bound, limit))
    ensures Runs(s, ReadSteps(s, ch, bound, limit))
    ensures Exec(s, ReadSteps(s, ch, bound, limit)) == s.(store := ReadStore(s.store, ch, bound, limit))
  {
    hide FetchRows, FinishRead, PlanFor, LeavesNoGap;
    var t := Step(s, ReadStart(ch, bound, limit));
    RowsThenEnd(t);
    assert t.reader.fetched[0..] == t.reader.fetched;
    ExecCons(s, ReadStart(ch, bound, limit), Rows(|t.reader.fetched|) + [ReadEnd]);
  }

  lemma {:induction false} CreatedNothing(next: nat, n: nat)
    ensures Created(next, Rows(n) + [ReadEnd]) == []
  {
    if n == 0 {
      assert Rows(n) + [ReadEnd] == [ReadEnd];
    } else {
      assert (Rows(n) + [ReadEnd])[1..] == Rows(n - 1) + [ReadEnd];
      CreatedNothing(next, n - 1);
    }
  }

  /** An uninterrupted read that leaves no gap keeps the invariant. */
  lemma ReadKeeps(s: System, ch: nat, bound: nat, limit: nat)
    requires Inv(s) && Enabled(s, ReadStart(ch, bound, limit))
    ensures Inv(s.(store := ReadStore(s.store, ch, bound, limit)))
    ensures Written(s.(store := ReadStore(s.store, ch, bound, limit))) == Written(s)
  {
    hide Inv, Written, Step, Enabled, ReadStore;
    ReadStepsRun(s, ch, bound, limit);
    RunKeeps(s, ReadSteps(s, ch, bound, limit));
    var n := |FetchRows(s.store.rows, ch, PlanFor(s.store, ch, bound, limit))|;
    CreatedNothing(s.store.nextId, n);
    assert ReadSteps(s, ch, bound, limit)[1..] == Rows(n) + [ReadEnd];
    assert Written(s) + [] == Written(s);
  }

  /** The page of an uninterrupted read. It is exact whatever the bound. */
  lemma ReadPageIsExact(s: System, ch: nat, bound: nat, limit: nat)
    requires Inv(s) && s.reader.NoRead?
    ensures ReadPage(s.store, ch, bound, limit) == Query(Written(s), ch, bound, limit)
  {
    var w := Written(s);
    if ch !in s.store.logs {
      EmptyChannel(w, ch);
    } else {
      var log := s.store.logs[ch];
      var plan := PlanRead(log, bound, limit);
      var fetched := FetchRows(s.store.rows, ch, plan);
      TableIsWritten(s);
      FetchOfClosedWindow(w, s.store.rows, s.store.watermark, ch, log, bound, limit);
      ExactIds(s, ch, bound, limit);
      ReadCacheOk(s, ch, bound, limit);
      QueryIsLatestPage(w, ch, bound, limit);
      hide Written, Query, Inv, FetchRows, AssignMessages;
      LookupIds(AssignMessages(s.store, fetched).cache, Query(w, ch, bound, limit));
    }
  }

  lemma ExactIds(s: System, ch: nat, bound: nat, limit: nat)
    requires Inv(s) && ch in s.store.logs
    ensures var plan := PlanRead(s.store.logs[ch], bound, limit);
      Ids(FetchRows(s.store.rows, ch, plan)) + plan.cached == Ids(Query(Written(s), ch, bound, limit))
  {
    hide Written, Query, FetchRows, PlanRead, LogOk, CacheOk;
    TableIsWritten(s);
    WindowIdsAreExact(Written(s), s.store.rows, s.store.watermark, ch, s.store.logs[ch], bound, limit);
  }

  /** After caching the fetched rows every message of the page is cached. */
  lemma ReadCacheOk(s: System, ch: nat, bound: nat, limit: nat)
    requires Inv(s) && ch in s.store.logs
    ensures var plan := PlanRead(s.store.logs[ch], bound, limit);
      var cache := AssignMessages(s.store, FetchRows(s.store.rows, ch, plan)).cache;
      forall m | m in Query(Written(s), ch, bound, limit) :: m.id in cache && cache[m.id] == m
  {
    var w, log := Written(s), s.store.logs[ch];
    var plan := PlanRead(log, bound, limit);
    var fetched := FetchRows(s.store.rows, ch, plan);
    var page := Query(w, ch, bound, limit);
    hide Written, Query, FetchRows, AssignMessages, LogsOk, WatermarkOk, ReaderOk, PlanRead;
    FetchedInTable(s, ch, plan);
    QueryIsLatestPage(w, ch, bound, limit);
    ExactIds(s, ch, bound, limit);
    PlanCachedInWindow(log, bound, limit);
    AssignCache(s.store, w, fetched);
    forall m | m in page
      ensures var cache := AssignMessages(s.store, fetched).cache; m.id in cache && cache[m.id] == m
    {
      FetchedOrCached(w, page, fetched, plan.cached, m);
      assert m.id in plan.cached ==> InWindow(s.store.logs, m);
      hide Inv, Ids;
    }
  }

  /** A message of the page is one of those fetched or has a cached id. */
  lemma FetchedOrCached(w: seq<Message>, page: seq<Message>, fetched: seq<Message>, cached: seq<nat>, m: Message)
    requires Ordered(w) && Ids(fetched) + cached == Ids(page)
    requires m in page && m in w && forall x | x in fetched :: x in w
    ensures m in fetched || m.id in cached
  {
    var i :| 0 <= i < |page| && page[i] == m;
    assert m.id == (Ids(fetched) + cached)[i];
    if i < |fetched| {
      SameIdSameMessage(w, m, fetched[i]);
    } else {
      assert m.id == cached[i - |fetched|];
    }
  }

  lemma FetchedInTable(s: System, ch: nat, plan: Plan)
    requires Ordered(Written(s))
    ensures forall m | m in FetchRows(s.store.rows, ch, plan) :: m in Written(s)
  {
    var rows, w := s.store.rows, Written(s);
    TableIsWritten(s);
    assert rows == w[..|rows|];
    OrderedSlice(w, 0, |rows|);
    hide Written;
    if plan.fetch.Some? {
      QueryIsLatestPage(rows, ch, plan.fetch.value.bound, plan.fetch.value.limit);
    }
  }

  /** Caching written messages keeps every correct cache entry and adds theirs. */
  lemma {:induction false} AssignCache(st: Store, w: seq<Message>, ms: seq<Message>)
    requires Ordered(w) && forall m | m in ms :: m in w
    ensures forall m | m in w && (m in ms || (m.id in st.cache && st.cache[m.id] == m)) ::
              m.id in AssignMessages(st, ms).cache && AssignMessages(st, ms).cache[m.id] == m
  {
    if ms != [] {
      var front, last := ms[..|ms| - 1], ms[|ms| - 1];
      assert ms == front + [last];
      AssignCache(st, w, front);
      forall m | m in w && (m in ms || (m.id in st.cache && st.cache[m.id] == m))
        ensures m.id in AssignMessages(st, ms).cache && AssignMessages(st, ms).cache[m.id] == m
      {
        if m.id == last.id { SameIdSameMessage(w, m, last); }
      }
    }
  }

  // ------------------------------------------------- reads that leave a gap

  /** A read below the window, with `n` messages below the bound and `k` outside
      the window: the `n`-th message is not cached by it. */
  lemma GapStaysOpen(c: seq<Message>, k: nat, log: Log, bound: nat, n: nat, limit: nat)
    requires WindowOf(c, k, log.ids) && CutAt(c, bound, n) && n < k
    ensures c[n].id !in AssignIds(log.ids, Ids(Slice(c, n, limit)))
    ensures forall id | id in AssignIds(log.ids, Ids(Slice(c, n, limit))) :: id in log.ids || id < c[n].id
  {
    AssignIdsIsUnion(log.ids, Ids(Slice(c, n, limit)));
  }

  lemma SuffixHasNext(c: seq<Message>, k: nat, ids: seq<nat>, n: nat)
    requires WindowOf(c, k, ids) && n < |c|
    requires k == 0 || (0 < n && c[n - 1].id in ids)
    ensures c[n].id in ids
  {
    if k == 0 {
      assert ids[n] == c[n].id;
    } else {
      var i :| 0 <= i < |ids| && ids[i] == c[n - 1].id;
      assert k + i == n - 1;
      assert ids[i + 1] == c[n].id;
    }
  }

  lemma GapBreaksLog(written: seq<Message>, rows: seq<Message>, w: Option<nat>, ch: nat, log: Log, bound: nat, n: nat, limit: nat, fetched: seq<Message>)
    requires LogOk(written, rows, w, ch, log) && limit > 0
    requires CutAt(Channel(written, ch), bound, n) && n < |Channel(written, ch)| - |log.ids|
    requires fetched == Slice(Channel(written, ch), n, limit)
    ensures !LogOk(written, rows, w, ch, Log(AssignIds(log.ids, Ids(fetched)), log.complete || limit > |fetched|))
  {
    hide Channel, AssignIds;
    var c := Channel(written, ch);
    var after := Log(AssignIds(log.ids, Ids(fetched)), log.complete || limit > |fetched|);
    GapStaysOpen(c, |c| - |log.ids|, log, bound, n, limit);
    hide CutAt, CountBelow;
    assert 0 < n ==> Ids(fetched)[|fetched| - 1] == c[n - 1].id;
    AssignIdsIsUnion(log.ids, Ids(fetched));
    if LogOk(written, rows, w, ch, after) {
      hide Ids;
      SuffixHasNext(c, |c| - |after.ids|, after.ids, n);
    }
  }

  /** A read keeps its channel's window closed exactly when it asks for nothing
      or no message of the channel lies between its bound and the window. */
  lemma WindowKeptIffGapless(s: System, ch: nat, bound: nat, limit: nat)
    requires Inv(s) && s.reader.NoRead? && ch in s.store.logs
    ensures LogOk(Written(s), s.store.rows, s.store.watermark, ch, ReadStore(s.store, ch, bound, limit).logs[ch])
            <==> limit == 0 || Gapless(Written(s), ch, s.store.logs[ch], bound)
  {
    if Gapless(Written(s), ch, s.store.logs[ch], bound) {
      GaplessReadKeepsLog(s, ch, bound, limit);
    } else if limit == 0 {
    } else {
      var _ := GappedRead(s, ch, bound, limit);
    }
  }

  lemma GaplessReadKeepsLog(s: System, ch: nat, bound: nat, limit: nat)
    requires Inv(s) && Enabled(s, ReadStart(ch, bound, limit)) && ch in s.store.logs
    ensures ch in ReadStore(s.store, ch, bound, limit).logs
    ensures LogOk(Written(s), s.store.rows, s.store.watermark, ch, ReadStore(s.store, ch, bound, limit).logs[ch])
  {
    ReadKeeps(s, ch, bound, limit);
    ReadMovesNothing(s, ch, bound, limit);
    hide ReadStore, LogOk, Written, CacheOk;
  }

  lemma ReadMovesNothing(s: System, ch: nat, bound: nat, limit: nat)
    requires Inv(s)
    ensures var t := ReadStore(s.store, ch, bound, limit);
      && t.rows == s.store.rows && t.watermark == s.store.watermark
      && (ch in s.store.logs ==> ch in t.logs)
  {
    hide PlanFor, FetchRows, Inv;
    AssignMovesNothing(s.store, FetchRows(s.store.rows, ch, PlanFor(s.store, ch, bound, limit)));
  }

  lemma {:induction false} AssignMovesNothing(st: Store, ms: seq<Message>)
    ensures AssignMessages(st, ms).rows == st.rows && AssignMessages(st, ms).watermark == st.watermark
  {
    if ms != [] { AssignMovesNothing(st, ms[..|ms| - 1]); }
  }

  /** What a read that leaves a gap does: its page is exact, but a message of the
      channel stays outside the widened window, which is no longer closed. */
  lemma GappedRead(s: System, ch: nat, bound: nat, limit: nat) returns (lost: Message)
    requires Inv(s) && s.reader.NoRead? && ch in s.store.logs && limit > 0
    requires !Gapless(Written(s), ch, s.store.logs[ch], bound)
    ensures var log := ReadStore(s.store, ch, bound, limit).logs[ch];
      && !LogOk(Written(s), s.store.rows, s.store.watermark, ch, log)
      && lost.id !in log.ids
      && log.ids != [] && (log.complete || log.ids[0] <= lost.id)
    ensures lost in Channel(Written(s), ch)
  {
    hide Written, Channel, AssignIds, FetchRows, Gapless, CacheOk, WatermarkOk, ReadStore, PlanRead, CountBelow;
    var w, rows, log := Written(s), s.store.rows, s.store.logs[ch];
    var c := Channel(w, ch);
    var n := CountBelow(c, bound);
    var fetched := Slice(c, n, limit);
    GappedFetch(s, ch, bound, limit);
    GapBreaksLog(w, rows, s.store.watermark, ch, log, bound, n, limit, fetched);
    GapStaysOpen(c, |c| - |log.ids|, log, bound, n, limit);
    lost := c[n];
    ReadLog(s, ch, bound, limit, fetched);
    AssignIdsIsUnion(log.ids, Ids(fetched));
    SomethingCached(c, |c| - |log.ids|, log, n, limit);
  }

  lemma SomethingCached(c: seq<Message>, k: nat, log: Log, n: nat, limit: nat)
    requires WindowOf(c, k, log.ids) && n < k && limit > 0
    requires log.ids == [] ==> c == []
    ensures var ids := AssignIds(log.ids, Ids(Slice(c, n, limit)));
      ids != [] && (limit <= |Slice(c, n, limit)| ==> ids[0] <= c[n].id)
  {
    var fetched := Slice(c, n, limit);
    var ids := AssignIds(log.ids, Ids(fetched));
    AssignIdsIsUnion(log.ids, Ids(fetched));
    hide AssignIds;
    assert log.ids[0] in ids;
    if fetched != [] {
      assert Ids(fetched)[0] in ids;
      var i :| 0 <= i < |ids| && ids[i] == Ids(fetched)[0];
      assert ids[0] <= ids[i] <= c[n].id;
    }
  }

  /** A read that leaves a gap is one query below the window. */
  lemma GappedFetch(s: System, ch: nat, bound: nat, limit: nat)
    requires Inv(s) && ch in s.store.logs && limit > 0
    requires !Gapless(Written(s), ch, s.store.logs[ch], bound)
    ensures var log := s.store.logs[ch];
      var c := Channel(Written(s), ch);
      && Ordered(c) && LogOk(Written(s), s.store.rows, s.store.watermark, ch, log)
      && CutAt(c, bound, CountBelow(c, bound))
      && CountBelow(c, bound) < |c| - |log.ids|
      && PlanRead(log, bound, limit).fetch == Some(Fetch(bound, limit))
      && FetchRows(s.store.rows, ch, PlanRead(log, bound, limit)) == Slice(c, CountBelow(c, bound), limit)
  {
    hide Written, Channel, Gapless, CacheOk, WatermarkOk, ReaderOk, PlanRead, Below, CountBelow;
    var w, rows, log := Written(s), s.store.rows, s.store.logs[ch];
    var c, r := Channel(w, ch), Channel(rows, ch);
    TableIsWritten(s);
    ChannelPrefix(w, rows, ch);
    assert LogOk(w, rows, s.store.watermark, ch, log);
    var n := CountBelow(c, bound);
    GaplessCut(w, ch, c, |c| - |log.ids|, log, bound, n);
    var upto := FetchLocated(c, r, |c| - |log.ids|, log, bound, n, limit);
  }

  lemma ReadLog(s: System, ch: nat, bound: nat, limit: nat, fetched: seq<Message>)
    requires ch in s.store.logs
    requires PlanRead(s.store.logs[ch], bound, limit).fetch == Some(Fetch(bound, limit))
    requires FetchRows(s.store.rows, ch, PlanRead(s.store.logs[ch], bound, limit)) == fetched
    ensures ReadStore(s.store, ch, bound, limit).logs[ch] ==
      Log(AssignIds(s.store.logs[ch].ids, Ids(fetched)), s.store.logs[ch].complete || limit > |fetched|)
  {
    hide PlanRead, FetchRows, AssignIds, AssignMessages;
  }

  // ---------------------------------------- how a gap shows in a later read

  lemma {:induction false} LookupWithin(cache: map<nat, Message>, ids: seq<nat>)
    requires forall id | id in cache :: cache[id].id == id
    ensures forall m | m in Lookup(cache, ids) :: m.id in ids
  {
    if ids != [] { LookupWithin(cache, ids[..|ids| - 1]); }
  }

  lemma LowerBoundPositive(ids: seq<nat>, bound: nat)
    requires ids != [] && ids[0] < bound
    ensures LowerBound(ids, bound) > 0
  {
    if ids[|ids| - 1] >= bound { LowerBoundPositive(ids[..|ids| - 1], bound); }
  }

  /** A read above a window never reports an id that is neither in the window
      nor, when the window is not complete, before it. */
  lemma UnwindowedIsMissed(rows: seq<Message>, ch: nat, log: Log, bound: nat, limit: nat, id: nat)
    requires Ordered(rows)
    requires log.ids != [] && log.ids[0] < bound
    requires id !in log.ids && (log.complete || log.ids[0] <= id)
    ensures var plan := PlanRead(log, bound, limit);
      id !in Ids(FetchRows(rows, ch, plan)) + plan.cached
  {
    var plan := PlanRead(log, bound, limit);
    PlanCachedInWindow(log, bound, limit);
    LowerBoundPositive(log.ids, bound);
    if plan.fetch.Some? {
      QueryIsLatestPage(rows, ch, plan.fetch.value.bound, plan.fetch.value.limit);
      hide Query;
      assert plan.fetch.value.bound == log.ids[0];
    }
  }

  lemma AssignKeepsKeys(st: Store, ms: seq<Message>)
    requires forall id | id in st.cache :: st.cache[id].id == id
    ensures forall id | id in AssignMessages(st, ms).cache :: AssignMessages(st, ms).cache[id].id == id
  {
    if ms != [] { AssignKeepsKeys(st, ms[..|ms| - 1]); }
  }

  lemma ReadKeepsKeys(st: Store, ch: nat, bound: nat, limit: nat)
    requires forall id | id in st.cache :: st.cache[id].id == id
    ensures forall id | id in ReadStore(st, ch, bound, limit).cache :: ReadStore(st, ch, bound, limit).cache[id].id == id
  {
    hide PlanFor, FetchRows, AssignMessages;
    AssignKeepsKeys(st, FetchRows(st.rows, ch, PlanFor(st, ch, bound, limit)));
  }

  /** A page built from a log that lacks a message lacks the message. */
  lemma PageMisses(st: Store, ch: nat, bound: nat, limit: nat, lost: Message)
    requires Ordered(st.rows) && ch in st.logs
    requires forall id | id in st.cache :: st.cache[id].id == id
    requires st.logs[ch].ids != [] && st.logs[ch].ids[0] < bound
    requires lost.id !in st.logs[ch].ids && (st.logs[ch].complete || st.logs[ch].ids[0] <= lost.id)
    ensures lost !in ReadPage(st, ch, bound, limit)
  {
    hide AssignMessages, FetchRows, PlanRead;
    var plan := PlanFor(st, ch, bound, limit);
    var fetched := FetchRows(st.rows, ch, plan);
    UnwindowedIsMissed(st.rows, ch, st.logs[ch], bound, limit, lost.id);
    AssignKeepsKeys(st, fetched);
    LookupWithin(AssignMessages(st, fetched).cache, Ids(fetched) + plan.cached);
  }

  /** An unlimited query from the greatest id returns the whole channel. */
  lemma WholeChannel(written: seq<Message>, ch: nat, limit: nat)
    requires Ordered(written) && forall m | m in written :: m.id < MAX_ID
    requires |Channel(written, ch)| <= limit
    ensures Query(written, ch, MAX_ID, limit) == Channel(written, ch)
  {
    ChannelSpec(written, ch);
    var c := Channel(written, ch);
    hide Channel;
    if c != [] { assert c[|c| - 1] in written; }
    BelowIsPrefix(c, MAX_ID, |c|);
    assert c[..|c|] == c;
  }

  /** One read and then an unlimited one from the greatest id, as the server
      issues it: the second is exact exactly when the first asked for nothing or
      left no gap below the window. */
  lemma NextReadExactIffGapless(s: System, ch: nat, bound: nat, limit: nat, unlimited: nat)
    requires Inv(s) && s.reader.NoRead? && ch in s.store.logs
    requires |Channel(Written(s), ch)| <= unlimited
    ensures ReadPage(ReadStore(s.store, ch, bound, limit), ch, MAX_ID, unlimited) == Channel(Written(s), ch)
            <==> limit == 0 || Gapless(Written(s), ch, s.store.logs[ch], bound)
  {
    hide ReadStore, ReadPage, Written, Channel, Gapless, LogOk, CacheOk, Query;
    var t := s.(store := ReadStore(s.store, ch, bound, limit));
    WholeChannel(Written(s), ch, unlimited);
    if Gapless(Written(s), ch, s.store.logs[ch], bound) {
      ReadKeeps(s, ch, bound, limit);
      ReadPageIsExact(t, ch, MAX_ID, unlimited);
    } else if limit == 0 {
      EmptyRead(s.store, ch, bound);
      ReadPageIsExact(s, ch, MAX_ID, unlimited);
    } else {
      NextReadMisses(s, ch, bound, limit, unlimited);
    }
  }

  lemma EmptyRead(st: Store, ch: nat, bound: nat)
    ensures ReadStore(st, ch, bound, 0) == st
  {
  }

  lemma TableOrdered(s: System)
    requires Ordered(Written(s))
    ensures Ordered(s.store.rows)
  {
    OrderedSlice(Written(s), 0, |s.store.rows|);
    assert s.store.rows == Written(s)[0..|s.store.rows|];
  }

  lemma NextReadMisses(s: System, ch: nat, bound: nat, limit: nat, unlimited: nat)
    requires Inv(s) && s.reader.NoRead? && ch in s.store.logs && limit > 0
    requires !Gapless(Written(s), ch, s.store.logs[ch], bound)
    ensures ReadPage(ReadStore(s.store, ch, bound, limit), ch, MAX_ID, unlimited) != Channel(Written(s), ch)
  {
    hide ReadStore, ReadPage, Written, Channel, Gapless, LogOk, ReaderOk, WatermarkOk;
    var st := ReadStore(s.store, ch, bound, limit);
    var lost := GappedRead(s, ch, bound, limit);
    ReadMovesNothing(s, ch, bound, limit);
    ReadKeepsKeys(s.store, ch, bound, limit);
    TableOrdered(s);
    GappedLogBelowMax(s, ch, bound, limit);
    assert st.logs[ch].ids[0] in st.logs[ch].ids;
    PageMisses(st, ch, MAX_ID, unlimited, lost);
  }

  lemma GappedLogBelowMax(s: System, ch: nat, bound: nat, limit: nat)
    requires Inv(s) && ch in s.store.logs && limit > 0
    requires !Gapless(Written(s), ch, s.store.logs[ch], bound)
    ensures forall id | id in ReadStore(s.store, ch, bound, limit).logs[ch].ids :: id < MAX_ID
  {
    hide Written, FetchRows, Gapless, ReadStore, PlanRead, CacheOk, AssignIds, CountBelow, Channel;
    var log := s.store.logs[ch];
    var c := Channel(Written(s), ch);
    GappedFetch(s, ch, bound, limit);
    var fetched := Slice(c, CountBelow(c, bound), limit);
    ReadLog(s, ch, bound, limit, fetched);
    AssignIdsIsUnion(log.ids, Ids(fetched));
    ChannelSpec(Written(s), ch);
    ChannelIdsBelow(c, |c| - |log.ids|, log.ids, Written(s));
  }

  lemma ChannelIdsBelow(c: seq<Message>, k: nat, ids: seq<nat>, written: seq<Message>)
    requires WindowOf(c, k, ids)
    requires forall m | m in c :: m in written
    requires forall m | m in written :: m.id < MAX_ID
    ensures forall i | 0 <= i < |c| :: c[i].id < MAX_ID
    ensures forall id | id in ids :: id < MAX_ID
  {
    forall i | 0 <= i < |c| ensures c[i].id < MAX_ID { assert c[i] in written; }
  }

  // ------------------------------------------------ a database with such a gap

  /** `n` messages of one channel, numbered from 0. */
  function Numbered(n: nat): seq<Message> {
    if n == 0 then [] else Numbered(n - 1) + [Message(n - 1, 1, 1, "")]
  }

  lemma {:induction false} NumberedSpec(n: nat)
    ensures |Numbered(n)| == n && Channel(Numbered(n), 1) == Numbered(n)
    ensures forall i | 0 <= i < n :: Numbered(n)[i] == Message(i, 1, 1, "")
  {
    if n > 0 {
      NumberedSpec(n - 1);
      assert Numbered(n)[..n - 1] == Numbered(n - 1);
    }
  }

  /** Right after starting on 102 messages of one channel, asking for one message
      before id 1 leaves the message with id 1 outside the window: the
      next unlimited read misses it. */
  lemma GapExample()
    ensures ValidDatabase(Numbered(102), [1])
    ensures ReadPage(ReadStore(Start(Numbered(102), [1]).store, 1, 1, 1), 1, MAX_ID, 1000) != Numbered(102)
  {
    var rows := Numbered(102);
    var s := Start(rows, [1]);
    NumberedSpec(102);
    assert ValidDatabase(rows, [1]);
    WarmChannels(rows, [1]);
    PrewarmEstablishes(rows, [1]);
    PageIsNewest(rows, 1);
    hide Numbered, Start, Prewarm, Channel, ReadPage, ReadStore, Inv, Query, PrewarmPage;
    assert 1 in s.store.logs;
    assert s.store.logs[1].ids[0] == 2;
    assert rows[1].id == 1;
    assert !Gapless(Written(s), 1, s.store.logs[1], 1);
    NextReadExactIffGapless(s, 1, 1, 1, 1000);
  }
}
