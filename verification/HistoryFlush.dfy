/** What the flushing thread achieves, when a read goes to the database, and what a
    started server holds in its windows. */
module HistoryFlush {
  import opened Sequences
  import opened Table
  import opened History
  import opened HistoryInvariant
  import opened HistoryRuns
  import opened HistoryTheorems

  // -------------------------------------------------------------- the watermark

  /** Except between commit and publication the watermark is the greatest id of the
      table. */
  predicate WatermarkExact(s: System) {
    !s.flush.Committed? ==>
      s.store.watermark == if s.store.rows == [] then None else Some(s.store.rows[|s.store.rows| - 1].id)
  }

  lemma ReadsKeepTable(s: System, a: Action)
    requires History.Enabled(s, a) && (a.Create? || a.ReadStart? || a.ReadRow? || a.ReadEnd?)
    ensures var t := History.Step(s, a);
      t.store.rows == s.store.rows && t.store.watermark == s.store.watermark && t.flush == s.flush
  {
    hide PlanFor, FetchRows, AssignIds, AppendId, LogOf;
  }

  lemma WatermarkStep(s: System, a: Action)
    requires Inv(s) && History.Enabled(s, a) && WatermarkExact(s)
    ensures WatermarkExact(History.Step(s, a))
  {
    if a.Create? || a.ReadStart? || a.ReadRow? || a.ReadEnd? {
      ReadsKeepTable(s, a);
      hide History.Step, Inv;
    } else if a.Commit? {
      InvOrdered(s);
      CommitIsAppend(s);
      hide WrittenOk, LogsOk, CacheOk, ReaderOk, Written;
    } else {
      hide WrittenOk, LogsOk, CacheOk, ReaderOk, Written;
    }
  }

  lemma {:induction false} WatermarkRun(s: System, actions: seq<Action>)
    requires Inv(s) && History.Runs(s, actions) && WatermarkExact(s)
    ensures WatermarkExact(History.Exec(s, actions))
    decreases |actions|
  {
    hide Inv, WatermarkExact, History.Step, History.Enabled;
    if actions != [] {
      WatermarkStep(s, actions[0]);
      StepKeeps(s, actions[0]);
      WatermarkRun(History.Step(s, actions[0]), actions[1..]);
    }
  }

  lemma {:induction false} PrewarmKeepsTable(rows: seq<Message>, channels: seq<nat>)
    requires Ordered(rows)
    ensures Prewarm(rows, channels).rows == rows && Prewarm(rows, channels).watermark == LastId(rows)
  {
    WarmChannels(rows, channels);
    hide Prewarm, PrewarmPage;
  }

  lemma StartWatermark(rows: seq<Message>, channels: seq<nat>)
    requires Ordered(rows)
    ensures WatermarkExact(Start(rows, channels))
  {
    PrewarmKeepsTable(rows, channels);
    hide Prewarm, Ordered;
  }

  /** In every run from a started server, whatever is created, read and flushed: when
      no flush stands between its commit and its publication, the watermark is the
      greatest id of the table. */
  lemma WatermarkIsGreatest(rows: seq<Message>, channels: seq<nat>, actions: seq<Action>)
    requires ValidDatabase(rows, channels) && History.Runs(Start(rows, channels), actions)
    ensures var s := History.Exec(Start(rows, channels), actions);
      !s.flush.Committed? ==>
        s.store.watermark == if s.store.rows == [] then None else Some(s.store.rows[|s.store.rows| - 1].id)
  {
    PrewarmEstablishes(rows, channels);
    StartWatermark(rows, channels);
    hide Start, Inv, ValidDatabase, History.Runs, History.Exec;
    WatermarkRun(Start(rows, channels), actions);
  }

  /** The three states of a flush left alone. */
  function Taken(s: System): System {
    s.(store := s.store.(pending := []), flush := Swapped(s.store.pending))
  }

  function Stored(s: System, batch: seq<Message>, last: nat): System {
    s.(store := s.store.(rows := s.store.rows + batch), flush := Committed(Some(last)))
  }

  function Published(s: System, last: nat): System {
    s.(store := s.store.(watermark := Some(last)), flush := Idle)
  }

  lemma SwapTakes(s: System)
    requires s.flush.Idle? && s.store.pending != []
    ensures History.Enabled(s, Swap) && History.Step(s, Swap) == Taken(s)
  {
  }

  lemma CommitStores(s: System)
    requires Inv(s) && s.flush.Idle? && s.store.pending != []
    ensures History.Enabled(Taken(s), Commit)
    ensures History.Step(Taken(s), Commit) == Stored(Taken(s), s.store.pending, s.store.pending[|s.store.pending| - 1].id)
  {
    InvOrdered(s);
    hide Inv;
    assert s.store.rows + s.store.pending + [] == s.store.rows + [] + s.store.pending;
    assert Written(Taken(s)) == Written(s);
    CommitIsAppend(Taken(s));
  }

  lemma PublishRaises(s: System, last: nat)
    requires s.flush == Committed(Some(last))
    ensures History.Enabled(s, Publish) && History.Step(s, Publish) == Published(s, last)
  {
  }

  /** A flush left alone moves everything pending into the table, in order, and
      raises the watermark to its last id. */
  lemma FlushPersists(s: System)
    requires Inv(s) && s.flush.Idle? && s.store.pending != []
    ensures var path := [Swap, Commit, Publish];
      && History.Runs(s, path)
      && History.Exec(s, path) == s.(store := s.store.(
           rows := s.store.rows + s.store.pending,
           pending := [],
           watermark := Some(s.store.pending[|s.store.pending| - 1].id)))
  {
    var last := s.store.pending[|s.store.pending| - 1].id;
    var s1 := Taken(s);
    var s2 := Stored(s1, s.store.pending, last);
    var s3 := Published(s2, last);
    hide History.Step, History.Enabled, Inv, History.Runs, History.Exec;
    SwapTakes(s);
    CommitStores(s);
    PublishRaises(s2, last);
    NothingRuns(s3);
    ExecCons(s2, Publish, []);
    ExecCons(s1, Commit, [Publish] + []);
    ExecCons(s, Swap, [Commit] + ([Publish] + []));
    assert [Swap] + ([Commit] + ([Publish] + [])) == [Swap, Commit, Publish];
  }

  lemma NothingRuns(s: System)
    ensures History.Runs(s, []) && History.Exec(s, []) == s
  {
  }

  // ------------------------------------------------- when the database is asked

  lemma {:induction false} LowerBoundIs(ids: seq<nat>, bound: nat, n: nat)
    requires n <= |ids| && (forall i | 0 <= i < n :: ids[i] < bound) && (forall i | n <= i < |ids| :: bound <= ids[i])
    ensures LowerBound(ids, bound) == n
    decreases |ids|
  {
    if ids != [] && n < |ids| { LowerBoundIs(ids[..|ids| - 1], bound, n); }
  }

  /** When a read asks the database and for what, given that `n` ids of the window lie
      below its bound: exactly when it asks for something and none does, or fewer than
      asked for do and the window is not known to be complete. It takes the greatest
      ids below the bound from the window, and asks for the rest below the window. */
  lemma FetchIff(log: Log, bound: nat, limit: nat, n: nat)
    requires n <= |log.ids|
    requires (forall i | 0 <= i < n :: log.ids[i] < bound) && (forall i | n <= i < |log.ids| :: bound <= log.ids[i])
    ensures var plan := PlanRead(log, bound, limit);
      && (plan.fetch.Some? <==> limit > 0 && (n == 0 || (!log.complete && n < limit)))
      && (plan.fetch.Some? ==> plan.fetch.value == Fetch(if n == 0 then bound else log.ids[0], limit - n))
      && (limit >= n ==> limit > 0 ==> plan.cached == log.ids[..n])
      && (limit < n ==> plan.cached == log.ids[n - limit..n])
  {
    LowerBoundIs(log.ids, bound, n);
    hide LowerBound;
    assert limit == 0 ==> log.ids[n..n] == [];
  }

  /** A window is flagged complete exactly when a read asked for more than there was. */
  lemma CompleteIff(s: System)
    requires Inv(s) && History.Enabled(s, ReadEnd) && s.reader.ch in s.store.logs
    ensures var t := History.Step(s, ReadEnd);
      && s.reader.ch in t.store.logs
      && (t.store.logs[s.reader.ch].complete <==>
            s.store.logs[s.reader.ch].complete
            || (s.reader.plan.fetch.Some? && |s.reader.fetched| < s.reader.plan.fetch.value.limit))
  {
    hide Inv, AssignIds;
  }

  // ------------------------------------------------------------- a started server

  lemma LastHundred(c: seq<Message>) returns (w: seq<Message>)
    ensures w == LastN(c, PREWARM_COUNT) && |w| <= |c| && w == c[|c| - |w|..] && |w| == if |c| < 100 then |c| else 100
  {
    w := LastN(c, PREWARM_COUNT);
  }

  /** A started server holds, for each channel of the database, the ids of its last
      100 messages, or of all if there are fewer, and those messages. */
  lemma PrewarmedWindow(rows: seq<Message>, channels: seq<nat>, ch: nat) returns (w: seq<Message>)
    requires ValidDatabase(rows, channels) && ch in channels
    ensures var c := Channel(rows, ch);
      |w| == (if |c| < 100 then |c| else 100) && |w| <= |c| && w == c[|c| - |w|..]
    ensures var st := Start(rows, channels).store;
      && ch in st.logs && st.logs[ch] == Log(Ids(w), false)
      && forall m | m in w :: m.id in st.cache && st.cache[m.id] == m
  {
    var st := Start(rows, channels).store;
    w := LastHundred(Channel(rows, ch));
    WarmedLog(rows, channels, ch);
    PageInTable(rows, ch);
    hide Start, LastN, ValidDatabase, Channel;
    WindowCached(rows, st, ch, w);
  }

  lemma WarmedLog(rows: seq<Message>, channels: seq<nat>, ch: nat)
    requires ValidDatabase(rows, channels) && ch in channels
    ensures var st := Start(rows, channels).store;
      && ch in st.logs && st.logs[ch] == Log(Ids(LastN(Channel(rows, ch), PREWARM_COUNT)), false)
      && CacheOk(rows, st.logs, st.cache)
  {
    WarmChannels(rows, channels);
    PageIsNewest(rows, ch);
    PrewarmedCacheOk(Prewarm(rows, channels), rows, channels);
    hide Prewarm, Query, Channel, StartStore, LastN, PrewarmPage, CacheOk;
  }

  lemma PageInTable(rows: seq<Message>, ch: nat)
    ensures forall m | m in LastN(Channel(rows, ch), PREWARM_COUNT) :: m in rows && m.channelId == ch
  {
    ChannelSpec(rows, ch);
    hide Channel;
  }

  lemma WindowCached(rows: seq<Message>, st: Store, ch: nat, w: seq<Message>)
    requires CacheOk(rows, st.logs, st.cache) && ch in st.logs && st.logs[ch] == Log(Ids(w), false)
    requires forall m | m in w :: m in rows && m.channelId == ch
    ensures forall m | m in w :: m.id in st.cache && st.cache[m.id] == m
  {
    forall m | m in w ensures m.id in st.cache && st.cache[m.id] == m {
      var i :| 0 <= i < |w| && w[i] == m;
      assert Ids(w)[i] == m.id;
      assert InWindow(st.logs, m);
    }
  }
}
