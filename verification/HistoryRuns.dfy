/** Every step of the history machine keeps the invariant; hence, over every
    run, nothing written is lost or duplicated and every read is exact. */
module HistoryRuns {
  import opened Sequences
  import opened Table
  import opened History
  import opened HistoryInvariant

  // ----------------------------------------------------------- creating a message

  lemma ChannelOfAppend(written: seq<Message>, m: Message, ch: nat)
    ensures Channel(written + [m], ch) == Channel(written, ch) + if m.channelId == ch then [m] else []
  {
    assert (written + [m])[..|written + [m]| - 1] == written;
  }

  lemma LogGrows(written: seq<Message>, rows: seq<Message>, w: Option<nat>, log: Log, m: Message)
    requires LogOk(written, rows, w, m.channelId, log)
    requires Ordered(Channel(written + [m], m.channelId))
    ensures LogOk(written + [m], rows, w, m.channelId, log.(ids := log.ids + [m.id]))
  {
    ChannelOfAppend(written, m, m.channelId);
    WindowGrows(Channel(written, m.channelId), |Channel(written, m.channelId)| - |log.ids|, log.ids, m);
  }

  lemma WindowGrows(c: seq<Message>, k: nat, ids: seq<nat>, m: Message)
    requires WindowOf(c, k, ids) && Ordered(c + [m])
    ensures WindowOf(c + [m], k, ids + [m.id])
  {
  }

  lemma LogUnaffected(written: seq<Message>, rows: seq<Message>, w: Option<nat>, ch: nat, log: Log, m: Message)
    requires LogOk(written, rows, w, ch, log)
    requires m.channelId != ch
    ensures LogOk(written + [m], rows, w, ch, log)
  {
    ChannelOfAppend(written, m, ch);
  }

  lemma WindowBelow(written: seq<Message>, rows: seq<Message>, w: Option<nat>, ch: nat, log: Log, bound: nat)
    requires LogOk(written, rows, w, ch, log)
    requires forall m | m in written :: m.id < bound
    ensures AppendId(log.ids, bound) == log.ids + [bound]
  {
    if log.ids != [] {
      var c := Channel(written, ch);
      ChannelSpec(written, ch);
      assert c[|c| - 1].id == log.ids[|log.ids| - 1];
      assert c[|c| - 1] in c;
    }
  }

  lemma {:induction false} EmptyChannel(written: seq<Message>, ch: nat)
    requires forall m | m in written :: m.channelId != ch
    ensures Channel(written, ch) == []
  {
    if written != [] { EmptyChannel(written[..|written| - 1], ch); }
  }

  lemma FreshIdUncovered(s: System)
    requires Inv(s)
    ensures !Covered(s.store.watermark, s.store.nextId)
  {
    if s.store.watermark.Some? {
      var rows := s.store.rows;
      assert Written(s)[|rows| - 1] == rows[|rows| - 1];
      assert rows[|rows| - 1] in Written(s);
    }
  }

  /** The store after a creation, spelled out: the message is queued and appended. */
  function Queued(s: System, m: Message): System {
    var log := LogOf(s.store, m.channelId);
    s.(store := s.store.(
         nextId := s.store.nextId + 1,
         cache := s.store.cache[m.id := m],
         pending := s.store.pending + [m],
         logs := s.store.logs[m.channelId := log.(ids := log.ids + [m.id])]))
  }

  lemma LogOfOk(s: System, ch: nat)
    requires Inv(s)
    ensures LogOk(Written(s), s.store.rows, s.store.watermark, ch, LogOf(s.store, ch))
  {
    if ch !in s.store.logs {
      EmptyChannel(Written(s), ch);
    }
  }

  lemma CreateIsQueue(s: System, ch: nat, user: nat, content: string)
    requires Inv(s) && s.store.nextId < MAX_ID
    ensures s.(store := CreateMessage(s.store, ch, user, content)) == Queued(s, NewMessage(s.store, ch, user, content))
  {
    hide LogOk, CacheOk, ReaderOk, WatermarkOk, Written, Ordered;
    FreshIdUncovered(s);
    LogOfOk(s, ch);
    WindowBelow(Written(s), s.store.rows, s.store.watermark, ch, LogOf(s.store, ch), s.store.nextId);
  }

  lemma QueuedWritten(s: System, m: Message)
    ensures Written(Queued(s, m)) == Written(s) + [m]
  {
  }

  lemma QueuedCache(written: seq<Message>, logs: map<nat, Log>, cache: map<nat, Message>, m: Message, log: Log)
    requires CacheOk(written, logs, cache)
    requires forall x | x in written :: x.id < m.id
    requires m.channelId in logs ==> logs[m.channelId] == log
    requires m.channelId !in logs ==> log.ids == []
    ensures CacheOk(written + [m], logs[m.channelId := log.(ids := log.ids + [m.id])], cache[m.id := m])
  {
  }

  lemma CreateKeeps(s: System, ch: nat, user: nat, content: string)
    requires Inv(s) && Enabled(s, Create(ch, user, content))
    ensures Inv(Step(s, Create(ch, user, content)))
    ensures Written(Step(s, Create(ch, user, content))) == Written(s) + [NewMessage(s.store, ch, user, content)]
  {
    var m := NewMessage(s.store, ch, user, content);
    var t := Queued(s, m);
    CreateIsQueue(s, ch, user, content);
    QueuedWritten(s, m);
    QueuedKeeps(s, m);
  }

  lemma QueuedLog(s: System, m: Message, ch: nat)
    requires Inv(s) && Ordered(Written(s) + [m])
    requires ch in s.store.logs || ch == m.channelId
    ensures LogOk(Written(s) + [m], s.store.rows, s.store.watermark, ch, Queued(s, m).store.logs[ch])
  {
    LogOfOk(s, ch);
    if ch == m.channelId {
      ChannelSpec(Written(s) + [m], ch);
      LogGrows(Written(s), s.store.rows, s.store.watermark, LogOf(s.store, ch), m);
    } else {
      LogUnaffected(Written(s), s.store.rows, s.store.watermark, ch, s.store.logs[ch], m);
    }
  }

  lemma QueuedKeeps(s: System, m: Message)
    requires Inv(s) && s.reader.NoRead?
    requires m.id == s.store.nextId < MAX_ID
    ensures Inv(Queued(s, m))
  {
    var t := Queued(s, m);
    QueuedWritten(s, m);
    QueuedWrittenOk(s, m);
    QueuedLogsOk(s, m);
    QueuedCache(Written(s), s.store.logs, s.store.cache, m, LogOf(s.store, m.channelId));
    hide LogsOk, CacheOk, Written;
    assert WatermarkOk(t) && ReaderOk(t);
  }

  lemma QueuedWrittenOk(s: System, m: Message)
    requires Inv(s) && m.id == s.store.nextId < MAX_ID
    ensures Ordered(Written(s) + [m]) && WrittenOk(Queued(s, m))
  {
    hide LogsOk, CacheOk, ReaderOk, WatermarkOk;
    QueuedWritten(s, m);
    hide Written;
    assert Ordered(Written(s) + [m]);
  }

  lemma QueuedLogsOk(s: System, m: Message)
    requires Inv(s) && Ordered(Written(s) + [m])
    ensures LogsOk(Queued(s, m))
  {
    var t := Queued(s, m);
    QueuedWritten(s, m);
    assert t.store.rows == s.store.rows && t.store.watermark == s.store.watermark;
    assert forall ch | ch in t.store.logs :: ch in s.store.logs || ch == m.channelId;
    hide Inv, Written, LogOk;
    forall ch | ch in t.store.logs ensures LogOk(Written(t), t.store.rows, t.store.watermark, ch, t.store.logs[ch]) {
      QueuedLog(s, m, ch);
    }
  }

  // --------------------------------------------------------------- starting a read

  lemma WrittenUnchanged(s: System, t: System)
    requires t.store.rows == s.store.rows && t.store.pending == s.store.pending && t.flush == s.flush
    ensures Written(t) == Written(s)
  {
  }

  lemma TableIsWritten(s: System)
    ensures s.store.rows <= Written(s)
  {
  }

  /** What a read against a closed window fetches: the same rows from the table
      as from everything written, all of them below the watermark. */
  lemma FetchOfClosedWindow(written: seq<Message>, rows: seq<Message>, w: Option<nat>, ch: nat, log: Log, bound: nat, limit: nat)
    requires rows <= written
    requires LogOk(written, rows, w, ch, log)
    ensures FetchRows(rows, ch, PlanRead(log, bound, limit)) == FetchRows(written, ch, PlanRead(log, bound, limit))
    ensures forall m | m in FetchRows(rows, ch, PlanRead(log, bound, limit)) :: Covered(w, m.id)
  {
    var c, r := Channel(written, ch), Channel(rows, ch);
    var k := |c| - |log.ids|;
    ChannelPrefix(written, rows, ch);
    PlanGivesPage(c, r, k, log, bound, CountBelow(c, bound), limit);
    var upto := FetchLocated(c, r, k, log, bound, CountBelow(c, bound), limit);
    SliceCovered(c, k, w, upto);
  }

  lemma SliceCovered(c: seq<Message>, k: nat, w: Option<nat>, upto: nat)
    requires upto <= k <= |c|
    requires forall i | 0 <= i < k :: Covered(w, c[i].id)
    ensures forall limit: nat, m | m in Slice(c, upto, limit) :: Covered(w, m.id)
  {
    forall limit: nat, m | m in Slice(c, upto, limit) ensures Covered(w, m.id) {
      var i :| upto - Min(upto, limit) <= i < upto && c[i] == m;
    }
  }

  lemma ReadStartKeeps(s: System, ch: nat, bound: nat, limit: nat)
    requires Inv(s) && Enabled(s, ReadStart(ch, bound, limit))
    ensures Inv(Step(s, ReadStart(ch, bound, limit)))
    ensures Written(Step(s, ReadStart(ch, bound, limit))) == Written(s)
  {
    var t := Step(s, ReadStart(ch, bound, limit));
    WrittenUnchanged(s, t);
    StartedReaderOk(s, ch, bound, limit);
    ReaderIrrelevant(s, t);
  }

  /** The plan of a read fetches what the whole history would give. */
  lemma StartedReaderOk(s: System, ch: nat, bound: nat, limit: nat)
    requires Inv(s) && Enabled(s, ReadStart(ch, bound, limit))
    ensures ReaderOk(Step(s, ReadStart(ch, bound, limit)))
  {
    hide CacheOk, LogOk, WatermarkOk, LeavesNoGap, PlanRead, FetchRows, Written;
    if ch in s.store.logs {
      TableIsWritten(s);
      FetchOfClosedWindow(Written(s), s.store.rows, s.store.watermark, ch, s.store.logs[ch], bound, limit);
    } else {
      NothingPlanned(s.store.rows, Written(s), ch);
    }
    WrittenUnchanged(s, Step(s, ReadStart(ch, bound, limit)));
  }

  lemma NothingPlanned(rows: seq<Message>, written: seq<Message>, ch: nat)
    ensures FetchRows(rows, ch, Plan(None, [])) == FetchRows(written, ch, Plan(None, [])) == []
  {
  }

  lemma ReaderIrrelevant(s: System, t: System)
    requires Inv(s) && t == s.(reader := t.reader) && ReaderOk(t)
    ensures Inv(t)
  {
    hide LogOk, CacheOk, ReaderOk, Written;
    WrittenUnchanged(s, t);
  }

  // -------------------------------------------------------------- caching the rows

  lemma FetchedAreWritten(s: System)
    requires Inv(s) && s.reader.Reading?
    ensures forall m | m in s.reader.fetched :: m in Written(s) && m.channelId == s.reader.ch
  {
    var r := s.reader;
    match r.plan.fetch
    case None =>
    case Some(f) => QueryIsLatestPage(Written(s), r.ch, f.bound, f.limit);
  }

  /** Ids are keys: two written messages with the same id are the same. */
  lemma SameIdSameMessage(written: seq<Message>, a: Message, b: Message)
    requires Ordered(written) && a in written && b in written && a.id == b.id
    ensures a == b
  {
  }

  /** Overwriting the cache entry of a written message with that message
      changes no cached message. */
  lemma RecachingKeepsCache(written: seq<Message>, cache: map<nat, Message>, m: Message, x: Message)
    requires Ordered(written) && m in written && x in written
    requires x == m || (x.id in cache && cache[x.id] == x)
    ensures x.id in cache[m.id := m] && cache[m.id := m][x.id] == x
  {
    if x.id == m.id { SameIdSameMessage(written, x, m); }
  }

  lemma RecachedReaderOk(s: System, t: System, m: Message)
    requires Inv(s) && Enabled(s, ReadRow) && m == s.reader.fetched[s.reader.done]
    requires t == s.(store := s.store.(cache := s.store.cache[m.id := m]), reader := s.reader.(done := s.reader.done + 1))
    ensures ReaderOk(t)
  {
    hide Written, FetchRows, LeavesNoGap, PlanFor, CacheOk, LogsOk, WatermarkOk;
    WrittenUnchanged(s, t);
    FetchedAreWritten(s);
    forall i | 0 <= i < t.reader.done
      ensures t.reader.fetched[i].id in t.store.cache && t.store.cache[t.reader.fetched[i].id] == t.reader.fetched[i]
    {
      RecachingKeepsCache(Written(s), s.store.cache, m, s.reader.fetched[i]);
    }
    PlanIgnoresCache(s.store, t.store);
  }

  lemma PlanIgnoresCache(st: Store, st': Store)
    requires st'.logs == st.logs
    ensures forall ch: nat, bound: nat, limit: nat :: PlanFor(st', ch, bound, limit) == PlanFor(st, ch, bound, limit)
  {
    hide PlanRead;
  }

  /** A re-cached row is below the watermark, so it is not queued again. */
  lemma RecachedIsNotQueued(s: System)
    requires Inv(s) && Enabled(s, ReadRow)
    ensures var m := s.reader.fetched[s.reader.done];
      Step(s, ReadRow) == s.(store := s.store.(cache := s.store.cache[m.id := m]), reader := s.reader.(done := s.reader.done + 1))
  {
    hide WrittenOk, LogsOk, CacheOk, WatermarkOk, PlanFor, FetchRows, LeavesNoGap;
  }

  lemma RecachedCacheOk(written: seq<Message>, logs: map<nat, Log>, cache: map<nat, Message>, m: Message)
    requires Ordered(written) && m in written && CacheOk(written, logs, cache)
    ensures CacheOk(written, logs, cache[m.id := m])
  {
    forall x | x in written && InWindow(logs, x) ensures x.id in cache[m.id := m] && cache[m.id := m][x.id] == x {
      RecachingKeepsCache(written, cache, m, x);
    }
  }

  lemma ReadRowKeeps(s: System)
    requires Inv(s) && Enabled(s, ReadRow)
    ensures Inv(Step(s, ReadRow)) && Written(Step(s, ReadRow)) == Written(s)
    ensures Step(s, ReadRow).store.pending == s.store.pending
  {
    hide Written, ReaderOk, Step, LogOk, CacheOk;
    var m := s.reader.fetched[s.reader.done];
    var t := Step(s, ReadRow);
    RecachedIsNotQueued(s);
    RecachedReaderOk(s, t, m);
    WrittenUnchanged(s, t);
    FetchedAreWritten(s);
    RecachedCacheOk(Written(s), s.store.logs, s.store.cache, m);
  }

  // ----------------------------------------------------------------- ending a read

  /** The window after a read that leaves no gap. */
  lemma FinishedLogOk(written: seq<Message>, rows: seq<Message>, w: Option<nat>, ch: nat, log: Log, bound: nat, limit: nat, fetched: seq<Message>)
    requires rows <= written
    requires LogOk(written, rows, w, ch, log) && Gapless(written, ch, log, bound)
    requires PlanRead(log, bound, limit).fetch.Some?
    requires fetched == FetchRows(written, ch, PlanRead(log, bound, limit))
    ensures var f := PlanRead(log, bound, limit).fetch.value;
      LogOk(written, rows, w, ch, Log(AssignIds(log.ids, Ids(fetched)), log.complete || f.limit > |fetched|))
  {
    hide PlanRead, Channel, Below, CountBelow, AssignIds, Gapless, FetchRows;
    var c, r := Channel(written, ch), Channel(rows, ch);
    var k := |c| - |log.ids|;
    var f := PlanRead(log, bound, limit).fetch.value;
    FetchOfClosedWindow(written, rows, w, ch, log, bound, limit);
    FetchedBelowWindow(written, rows, ch, log, bound, limit, fetched);
    ExtendedLogOk(c, |r|, w, k, log, f.limit, fetched);
  }

  /** A read that leaves no gap fetches from directly below the window. */
  lemma FetchedBelowWindow(written: seq<Message>, rows: seq<Message>, ch: nat, log: Log, bound: nat, limit: nat, fetched: seq<Message>)
    requires rows <= written
    requires var c := Channel(written, ch);
      && 0 <= |c| - |log.ids| <= |Channel(rows, ch)| && WindowOf(c, |c| - |log.ids|, log.ids)
      && (log.complete ==> |c| == |log.ids|) && (log.ids == [] ==> c == [])
    requires Gapless(written, ch, log, bound) && PlanRead(log, bound, limit).fetch.Some?
    requires fetched == FetchRows(rows, ch, PlanRead(log, bound, limit))
    ensures var c := Channel(written, ch);
      fetched == Slice(c, |c| - |log.ids|, PlanRead(log, bound, limit).fetch.value.limit)
  {
    hide PlanRead, Channel, Below, CountBelow, Gapless;
    var c, r := Channel(written, ch), Channel(rows, ch);
    var k := |c| - |log.ids|;
    var n := CountBelow(c, bound);
    ChannelPrefix(written, rows, ch);
    GaplessCut(written, ch, c, k, log, bound, n);
    var upto := FetchLocated(c, r, k, log, bound, n, limit);
  }

  /** The window extended by the rows directly below it. */
  lemma ExtendedLogOk(c: seq<Message>, stored: nat, w: Option<nat>, k: nat, log: Log, limit: nat, fetched: seq<Message>)
    requires WindowOf(c, k, log.ids) && k <= stored && fetched == Slice(c, k, limit)
    requires forall i | 0 <= i < k :: Covered(w, c[i].id)
    requires log.complete ==> k == 0
    requires log.ids == [] ==> c == []
    ensures var ids := AssignIds(log.ids, Ids(fetched));
      var outside := |c| - |ids|;
      && 0 <= outside <= stored && WindowOf(c, outside, ids)
      && (forall i | 0 <= i < outside :: Covered(w, c[i].id))
      && (log.complete || limit > |fetched| ==> outside == 0)
      && (ids == [] ==> c == [])
  {
    hide AssignIds;
    FetchExtendsWindow(c, k, log.ids, limit);
  }

  /** The store after a read that fetched. */
  function Widened(s: System): System
    requires s.reader.Reading? && s.reader.plan.fetch.Some?
  {
    var log := LogOf(s.store, s.reader.ch);
    s.(store := s.store.(logs := s.store.logs[s.reader.ch := Log(AssignIds(log.ids, Ids(s.reader.fetched)),
                                              log.complete || s.reader.plan.fetch.value.limit > |s.reader.fetched|)]),
       reader := NoRead)
  }

  lemma WidenedCacheOk(written: seq<Message>, logs: map<nat, Log>, cache: map<nat, Message>, ch: nat, ids: seq<nat>, complete: bool, fetched: seq<Message>)
    requires Ordered(written) && CacheOk(written, logs, cache)
    requires ch in logs
    requires forall id :: id in ids <==> id in logs[ch].ids || id in Ids(fetched)
    requires forall m | m in fetched :: m in written && m.id in cache && cache[m.id] == m
    ensures CacheOk(written, logs[ch := Log(ids, complete)], cache)
  {
    forall m | m in written && InWindow(logs[ch := Log(ids, complete)], m)
      ensures m.id in cache && cache[m.id] == m
    {
      if !InWindow(logs, m) {
        assert m.id in Ids(fetched);
        var i :| 0 <= i < |fetched| && Ids(fetched)[i] == m.id;
        SameIdSameMessage(written, m, fetched[i]);
      }
    }
  }

  lemma LogAscending(written: seq<Message>, rows: seq<Message>, w: Option<nat>, ch: nat, log: Log)
    requires LogOk(written, rows, w, ch, log)
    ensures Ascending(log.ids)
  {
  }

  lemma FetchAsks(log: Log, bound: nat, limit: nat)
    ensures PlanRead(log, bound, limit).fetch.Some? ==> limit > 0
  {
  }

  lemma WidenedLogsOk(s: System)
    requires Inv(s) && Enabled(s, ReadEnd) && s.reader.plan.fetch.Some? && s.reader.ch in s.store.logs
    ensures LogsOk(Widened(s))
  {
    hide Written, FetchRows, PlanRead, Gapless, LogOk, CacheOk, AssignIds;
    var r, t, log := s.reader, Widened(s), s.store.logs[s.reader.ch];
    WrittenUnchanged(s, t);
    TableIsWritten(s);
    FetchAsks(log, r.bound, r.limit);
    FinishedLogOk(Written(s), s.store.rows, s.store.watermark, r.ch, log, r.bound, r.limit, r.fetched);
  }

  lemma WidenedIsCached(s: System)
    requires Inv(s) && Enabled(s, ReadEnd) && s.reader.plan.fetch.Some? && s.reader.ch in s.store.logs
    ensures CacheOk(Written(s), Widened(s).store.logs, s.store.cache)
  {
    hide Written, FetchRows, PlanRead, LeavesNoGap, LogOk, CacheOk, AssignIds, Ids;
    var r, log := s.reader, s.store.logs[s.reader.ch];
    var after := Widened(s).store.logs[r.ch];
    FetchedAreWritten(s);
    assert LogOk(Written(s), s.store.rows, s.store.watermark, r.ch, log);
    LogAscending(Written(s), s.store.rows, s.store.watermark, r.ch, log);
    AssignIdsIsUnion(log.ids, Ids(r.fetched));
    WidenedCacheOk(Written(s), s.store.logs, s.store.cache, r.ch, after.ids, after.complete, r.fetched);
  }

  lemma ReadEndKeeps(s: System)
    requires Inv(s) && Enabled(s, ReadEnd)
    ensures Inv(Step(s, ReadEnd)) && Written(Step(s, ReadEnd)) == Written(s)
  {
    hide LogOk, PlanRead, LeavesNoGap, CacheOk, AssignIds, FetchRows;
    if s.reader.plan.fetch.Some? {
      assert s.reader.ch in s.store.logs;
      assert Step(s, ReadEnd) == Widened(s);
      WidenedLogsOk(s);
      WidenedIsCached(s);
      WrittenUnchanged(s, Widened(s));
    }
  }

  // ------------------------------------------------------------------ exact pages

  lemma {:induction false} LookupIds(cache: map<nat, Message>, ms: seq<Message>)
    requires forall m | m in ms :: m.id in cache && cache[m.id] == m
    ensures Lookup(cache, Ids(ms)) == ms
  {
    if ms != [] {
      var front := ms[..|ms| - 1];
      assert Ids(ms)[..|ms| - 1] == Ids(front);
      LookupIds(cache, front);
    }
  }

  lemma PlanCachedInWindow(log: Log, bound: nat, limit: nat)
    ensures forall id | id in PlanRead(log, bound, limit).cached :: id in log.ids
  {
  }

  lemma PageIsCached(s: System, page: seq<Message>)
    requires Inv(s) && Enabled(s, ReadEnd) && s.reader.ch in s.store.logs
    requires Ids(s.reader.fetched) + s.reader.plan.cached == Ids(page)
    requires forall m | m in page :: m in Written(s) && m.channelId == s.reader.ch
    ensures forall m | m in page :: m.id in s.store.cache && s.store.cache[m.id] == m
  {
    var r := s.reader;
    PlanCachedInWindow(s.store.logs[r.ch], r.bound, r.limit);
    FetchedAreWritten(s);
    forall m | m in page ensures m.id in s.store.cache && s.store.cache[m.id] == m {
      var i :| 0 <= i < |page| && page[i] == m;
      assert m.id == (Ids(r.fetched) + r.plan.cached)[i];
      if i < |r.fetched| {
        SameIdSameMessage(Written(s), m, r.fetched[i]);
      } else {
        assert m.id in r.plan.cached;
        assert InWindow(s.store.logs, m);
      }
    }
  }

  lemma SliceIsQuery(written: seq<Message>, ch: nat, bound: nat, limit: nat)
    requires Ordered(Channel(written, ch))
    ensures var c := Channel(written, ch);
      Slice(c, CountBelow(c, bound), limit) == Query(written, ch, bound, limit)
  {
    BelowIsCount(Channel(written, ch), bound);
  }

  /** The ids a read against a closed window ends with are those of the page. */
  lemma WindowIdsAreExact(written: seq<Message>, rows: seq<Message>, w: Option<nat>, ch: nat, log: Log, bound: nat, limit: nat)
    requires rows <= written
    requires LogOk(written, rows, w, ch, log)
    ensures Ids(FetchRows(rows, ch, PlanRead(log, bound, limit))) + PlanRead(log, bound, limit).cached
            == Ids(Query(written, ch, bound, limit))
  {
    hide PlanRead, Below, Channel, CountBelow;
    var c, r := Channel(written, ch), Channel(rows, ch);
    ChannelPrefix(written, rows, ch);
    PlanGivesPage(c, r, |c| - |log.ids|, log, bound, CountBelow(c, bound), limit);
    SliceIsQuery(written, ch, bound, limit);
  }

  lemma EndIdsAreExact(s: System)
    requires Inv(s) && Enabled(s, ReadEnd) && s.reader.ch in s.store.logs
    ensures Ids(s.reader.fetched) + s.reader.plan.cached
            == Ids(Query(Written(s), s.reader.ch, s.reader.bound, s.reader.limit))
  {
    hide Written, CacheOk, PlanRead, Query, FetchRows, LogOk, LeavesNoGap, WatermarkOk;
    var r, w, log := s.reader, Written(s), s.store.logs[s.reader.ch];
    TableIsWritten(s);
    FetchOfClosedWindow(w, s.store.rows, s.store.watermark, r.ch, log, r.bound, r.limit);
    WindowIdsAreExact(w, s.store.rows, s.store.watermark, r.ch, log, r.bound, r.limit);
  }

  /** A read returns exactly the page of everything written so far, whatever
      steps of the flushing thread came between its start and its end. */
  lemma EndPageIsExact(s: System)
    requires Inv(s) && Enabled(s, ReadEnd)
    ensures EndPage(s) == Query(Written(s), s.reader.ch, s.reader.bound, s.reader.limit)
  {
    var r, w := s.reader, Written(s);
    if r.ch in s.store.logs {
      EndIdsAreExact(s);
      QueryIsLatestPage(w, r.ch, r.bound, r.limit);
      hide Written, Query, Inv;
      var page := Query(w, r.ch, r.bound, r.limit);
      PageIsCached(s, page);
      LookupIds(s.store.cache, page);
    } else {
      EmptyChannel(w, r.ch);
    }
  }

  // ------------------------------------------------------------------------- runs

  lemma StepNextId(s: System, a: Action)
    requires Enabled(s, a) && (a.Create? ==> s.store.nextId < MAX_ID)
    ensures Step(s, a).store.nextId == s.store.nextId + if a.Create? then 1 else 0
  {
    hide PlanFor, FetchRows, InsertRows, AssignIds;
  }

  /** One step keeps the invariant and writes nothing but the created message. */
  lemma StepKeeps(s: System, a: Action)
    requires Inv(s) && Enabled(s, a)
    ensures Inv(Step(s, a))
    ensures Written(Step(s, a)) == Written(s) + (if a.Create? then [Message(s.store.nextId, a.ch, a.user, a.content)] else [])
    ensures Step(s, a).store.nextId == s.store.nextId + if a.Create? then 1 else 0
  {
    StepNextId(s, a);
    hide Step, Written, Inv;
    assert Written(s) + [] == Written(s);
    match a
    case Create(ch, user, content) => CreateKeeps(s, ch, user, content);
    case Swap => SwapKeeps(s);
    case Commit => CommitKeeps(s);
    case Publish => PublishKeeps(s);
    case ReadStart(ch, bound, limit) => ReadStartKeeps(s, ch, bound, limit);
    case ReadRow => ReadRowKeeps(s);
    case ReadEnd => ReadEndKeeps(s);
  }

  /** Over a whole run the invariant holds and everything written is what was
      there before followed by the created messages: moving messages to the
      batch and to the table loses none, duplicates none and reorders none. */
  lemma {:induction false} RunKeeps(s: System, actions: seq<Action>)
    requires Inv(s) && Runs(s, actions)
    ensures Inv(Exec(s, actions))
    ensures Written(Exec(s, actions)) == Written(s) + Created(s.store.nextId, actions)
    decreases |actions|
  {
    hide Step, Written, Inv;
    if actions == [] {
      assert Written(s) + [] == Written(s);
    } else {
      StepKeeps(s, actions[0]);
      RunKeeps(Step(s, actions[0]), actions[1..]);
    }
  }
}
