/** The server's history classes, field by field: the database adapter, a
    channel's message log and the message store. Their methods are tied to the
    operations of the history machine, including the call by which a log widens
    its own window through the store. */
module ChatStores {
  import opened Sequences
  import opened Table
  import opened History
  import opened IdArrays
  import opened HistoryInvariant

  class ChatPersistenceAdapter {
    var rows: seq<Message>
    const channels: seq<nat>

    constructor (rows: seq<Message>, channels: seq<nat>)
      ensures this.rows == rows && this.channels == channels
    {
      this.rows := rows;
      this.channels := channels;
    }

    function GetChatMessagesBefore(ch: nat, bound: nat, limit: nat): seq<Message>
      reads this
    {
      Query(rows, ch, bound, limit)
    }

    function GetLastChatMessageId(): Option<nat>
      reads this
    {
      LastId(rows)
    }

    /** One transaction; when the database refuses a row nothing is inserted and
        the exception leaves the caller without a result. */
    method PersistChatMessages(messages: seq<Message>) returns (accepted: bool, last: Option<nat>)
      modifies this
      ensures accepted <==> InsertRows(old(rows), messages).Some?
      ensures accepted ==> rows == InsertRows(old(rows), messages).value && last == LastId(messages)
      ensures !accepted ==> rows == old(rows)
    {
      var table := rows;
      last := None;
      var i := 0;
      while i < |messages|
        invariant 0 <= i <= |messages|
        invariant InsertRows(rows, messages[..i]) == Some(table)
        invariant last == LastId(messages[..i])
      {
        assert messages[..i + 1][..i] == messages[..i];
        last := Some(messages[i].id);
        var inserted := InsertRow(table, messages[i]);
        if inserted.None? {
          RefusedPrefix(rows, messages, i + 1);
          return false, last;
        }
        table := inserted.value;
        i := i + 1;
      }
      assert messages[..|messages|] == messages;
      rows := table;
      accepted := true;
    }
  }

  lemma {:induction false} RefusedPrefix(rows: seq<Message>, batch: seq<Message>, n: nat)
    requires n <= |batch| && InsertRows(rows, batch[..n]).None?
    ensures InsertRows(rows, batch).None?
    decreases |batch| - n
  {
    if n < |batch| {
      assert batch[..n + 1][..n] == batch[..n];
      RefusedPrefix(rows, batch, n + 1);
    } else {
      assert batch[..n] == batch;
    }
  }

  class ChatChannelMessageLog {
    const channelId: nat
    var channelMessageIds: seq<nat>
    var cacheComplete: bool

    constructor (channelId: nat)
      ensures this.channelId == channelId && channelMessageIds == [] && !cacheComplete
    {
      this.channelId := channelId;
      channelMessageIds := [];
      cacheComplete := false;
    }

    method AppendMessageId(messageId: nat)
      modifies this
      ensures channelMessageIds == AppendId(old(channelMessageIds), messageId)
      ensures cacheComplete == old(cacheComplete)
    {
      if channelMessageIds != [] && messageId <= channelMessageIds[|channelMessageIds| - 1] { return; }
      channelMessageIds := channelMessageIds + [messageId];
    }

    /** Sort, deduplicate, append, merge in place, deduplicate: the ascending
        list of the union of the old ids and the incoming ones. */
    method AssignMessageIds(messageIds: seq<nat>)
      requires Ascending(channelMessageIds)
      modifies this
      ensures channelMessageIds == AssignIds(old(channelMessageIds), messageIds)
      ensures Ascending(channelMessageIds)
      ensures forall x :: x in channelMessageIds <==> x in old(channelMessageIds) || x in messageIds
      ensures cacheComplete == old(cacheComplete)
    {
      AssignIdsIsUnion(channelMessageIds, messageIds);
      if messageIds == [] { return; }

      var incoming := new nat[|messageIds|](i requires 0 <= i < |messageIds| => messageIds[i]);
      assert incoming[..] == messageIds;
      MergeInPlace(incoming, 0);
      SameElements(incoming[..], messageIds);
      var count := UniqueInPlace(incoming);
      var all := channelMessageIds + incoming[..count];

      var merged := new nat[|all|](i requires 0 <= i < |all| => all[i]);
      assert merged[..] == all;
      assert merged[..][..|channelMessageIds|] == channelMessageIds;
      MergeInPlace(merged, |channelMessageIds|);
      SameElements(merged[..], all);
      var kept := UniqueInPlace(merged);
      AscendingUnique(merged[..kept], AssignIds(channelMessageIds, messageIds));
      channelMessageIds := merged[..kept];
    }

    /** lower_bound: the number of ids below `bound`. */
    method FindLowerBound(bound: nat) returns (n: nat)
      requires Ascending(channelMessageIds)
      ensures n == LowerBound(channelMessageIds, bound)
    {
      n := 0;
      var high := |channelMessageIds|;
      while n < high
        invariant 0 <= n <= high <= |channelMessageIds|
        invariant forall i | 0 <= i < n :: channelMessageIds[i] < bound
        invariant forall i | high <= i < |channelMessageIds| :: bound <= channelMessageIds[i]
      {
        var middle := (n + high) / 2;
        if channelMessageIds[middle] < bound { n := middle + 1; } else { high := middle; }
      }
      LowerBoundAt(channelMessageIds, bound, n);
    }

    method QueryAndCacheMessages(store: ChatMessageStore, bound: nat, limit: nat) returns (result: seq<nat>)
      requires store.Valid() && store.Owns(this)
      modifies store`messageCache, store`pendingMessages, store`messageLogs, store.messageLogs.Values
      ensures store.Valid() && store.messageLogs == old(store.messageLogs)
      ensures var before := old(store.View());
        var fetched := Query(before.rows, channelId, bound, limit);
        && result == Ids(fetched)
        && store.View() == FinishRead(AssignMessages(before, fetched), channelId, Plan(Some(Fetch(bound, limit)), []), fetched)
    {
      hide Query, AssignIds, AssignMessages, ChatMessageStore.Logs;
      var messages := store.adapter.GetChatMessagesBefore(channelId, bound, limit);
      store.OwnLog(this);
      result := [];
      for i := 0 to |messages|
        invariant result == Ids(messages[..i])
      {
        result := result + [messages[i].id];
        assert Ids(messages[..i + 1]) == Ids(messages[..i]) + [messages[i].id];
      }
      assert messages[..|messages|] == messages;
      SetComplete(store, cacheComplete || limit > |messages|);
      ghost var flagged := store.View();
      store.CacheMessages(channelId, messages);
      CachedIsFinished(old(store.View()), channelId, bound, limit, messages);
    }

    method SetComplete(store: ChatMessageStore, complete: bool)
      requires store.Valid() && store.Owns(this)
      modifies this`cacheComplete
      ensures store.Valid() && cacheComplete == complete
      ensures store.Logs() == old(store.Logs())[channelId := Log(channelMessageIds, complete)]
    {
      cacheComplete := complete;
      store.LogChanged(this);
    }

    method GetChatMessagesBefore(store: ChatMessageStore, bound: nat, limit: nat) returns (result: seq<nat>)
      requires store.Valid() && store.Owns(this)
      modifies store`messageCache, store`pendingMessages, store`messageLogs, store.messageLogs.Values
      ensures store.Valid() && store.messageLogs == old(store.messageLogs)
      ensures var before := old(store.View());
        var plan := PlanFor(before, channelId, bound, limit);
        && result == Ids(FetchRows(before.rows, channelId, plan)) + plan.cached
        && store.View() == ReadStore(before, channelId, bound, limit)
    {
      hide Query, AssignIds, AssignMessages, LowerBound, FinishRead, ChatMessageStore.Logs;
      store.OwnLog(this);
      NothingFetched(store.View(), channelId, bound, limit);
      if limit == 0 { return []; }

      if channelMessageIds == [] || bound <= channelMessageIds[0] {
        result := QueryAndCacheMessages(store, bound, limit);
        return;
      }

      var available := FindLowerBound(bound);
      if available == 0 {
        result := QueryAndCacheMessages(store, bound, limit);
        return;
      }

      var taken := Min(available, limit);
      var cached := channelMessageIds[available - taken..available];
      if cacheComplete || limit <= taken { return cached; }

      var remaining := limit - taken;
      var oldest := channelMessageIds[available - taken];
      CachedPartIsKept(store.View(), channelId, bound, limit);
      result := QueryAndCacheMessages(store, oldest, remaining);
      result := result + cached;
    }
  }

  class ChatMessageStore {
    const adapter: ChatPersistenceAdapter
    var latestPersistedId: Option<nat>
    var nextId: nat
    var messageCache: map<nat, Message>
    var pendingMessages: seq<Message>
    var messageLogs: map<nat, ChatChannelMessageLog>

    constructor (adapter: ChatPersistenceAdapter)
      ensures this.adapter == adapter && Valid() && messageLogs == map[]
      ensures View() == Store(adapter.rows, 0, None, map[], [], map[])
    {
      this.adapter := adapter;
      latestPersistedId := None;
      nextId := 0;
      messageCache := map[];
      pendingMessages := [];
      messageLogs := map[];
    }

    ghost predicate Valid()
      reads this`messageLogs, messageLogs.Values
    {
      forall ch | ch in messageLogs :: messageLogs[ch].channelId == ch && Ascending(messageLogs[ch].channelMessageIds)
    }

    predicate Owns(log: ChatChannelMessageLog)
      reads this`messageLogs
    {
      log.channelId in messageLogs && messageLogs[log.channelId] == log
    }

    ghost function Logs(): map<nat, Log>
      reads this`messageLogs, messageLogs.Values
    {
      map ch | ch in messageLogs :: Log(messageLogs[ch].channelMessageIds, messageLogs[ch].cacheComplete)
    }

    ghost function View(): Store
      reads this, adapter, messageLogs.Values
    {
      Store(adapter.rows, nextId, latestPersistedId, messageCache, pendingMessages, Logs())
    }

    /** try_emplace: the channel's log, created when there is none. */
    method EnsureLog(ch: nat) returns (log: ChatChannelMessageLog)
      requires Valid()
      modifies this`messageLogs
      ensures Valid() && Owns(log) && log.channelId == ch
      ensures Logs() == old(Logs())[ch := LogOf(old(View()), ch)]
      ensures Log(log.channelMessageIds, log.cacheComplete) == LogOf(old(View()), ch)
      ensures ch in old(messageLogs) ==> messageLogs == old(messageLogs)
      ensures ch !in old(messageLogs) ==> fresh(log) && messageLogs == old(messageLogs)[ch := log]
    {
      if ch in messageLogs {
        log := messageLogs[ch];
      } else {
        log := new ChatChannelMessageLog(ch);
        messageLogs := messageLogs[ch := log];
      }
    }

    lemma OwnLog(log: ChatChannelMessageLog)
      requires Owns(log)
      ensures log.channelId in Logs() && Logs()[log.channelId] == Log(log.channelMessageIds, log.cacheComplete)
    {
    }

    /** A log of this store changes and the others do not. */
    twostate lemma LogChanged(log: ChatChannelMessageLog)
      requires old(Valid()) && old(Owns(log)) && messageLogs == old(messageLogs)
      requires Ascending(log.channelMessageIds)
      requires forall ch | ch in messageLogs && messageLogs[ch] != log :: unchanged(messageLogs[ch])
      ensures Valid()
      ensures Logs() == old(Logs())[log.channelId := Log(log.channelMessageIds, log.cacheComplete)]
    {
      ghost var updated := old(Logs())[log.channelId := Log(log.channelMessageIds, log.cacheComplete)];
      assert Logs().Keys == messageLogs.Keys == old(Logs()).Keys && log.channelId in messageLogs;
      assert updated.Keys == Logs().Keys;
      forall ch | ch in messageLogs ensures Logs()[ch] == updated[ch] {
        if ch == log.channelId { assert messageLogs[ch] == log; } else { assert messageLogs[ch] != log; }
      }
      assert Logs() == updated;
    }

    method AssignTo(log: ChatChannelMessageLog, ids: seq<nat>)
      requires Valid() && Owns(log)
      modifies log
      ensures Valid()
      ensures Logs() == old(Logs())[log.channelId := Log(AssignIds(old(log.channelMessageIds), ids), old(log.cacheComplete))]
    {
      log.AssignMessageIds(ids);
      LogChanged(log);
    }

    method AppendTo(log: ChatChannelMessageLog, id: nat)
      requires Valid() && Owns(log)
      modifies log
      ensures Valid()
      ensures Logs() == old(Logs())[log.channelId := Log(AppendId(old(log.channelMessageIds), id), old(log.cacheComplete))]
    {
      log.AppendMessageId(id);
      LogChanged(log);
    }

    method AssignMessage(m: Message)
      modifies this`messageCache, this`pendingMessages
      ensures View() == History.AssignMessage(old(View()), m)
    {
      hide Logs;
      messageCache := messageCache[m.id := m];
      if latestPersistedId.Some? && m.id <= latestPersistedId.value { return; }
      pendingMessages := pendingMessages + [m];
    }

    /** The loop of CacheMessages: assign every message and collect the ids. */
    method AssignAll(messages: seq<Message>) returns (buffer: seq<nat>)
      modifies this`messageCache, this`pendingMessages
      ensures buffer == Ids(messages)
      ensures View() == AssignMessages(old(View()), messages)
    {
      hide Logs, History.AssignMessage, Valid;
      buffer := [];
      for i := 0 to |messages|
        invariant buffer == Ids(messages[..i])
        invariant View() == AssignMessages(old(View()), messages[..i])
      {
        buffer := buffer + [messages[i].id];
        AssignMessage(messages[i]);
        assert messages[..i + 1][..i] == messages[..i];
        assert Ids(messages[..i + 1]) == Ids(messages[..i]) + [messages[i].id];
      }
      assert messages[..|messages|] == messages;
    }

    method CacheMessages(ch: nat, messages: seq<Message>)
      requires Valid()
      modifies this`messageCache, this`pendingMessages, this`messageLogs, messageLogs.Values
      ensures Valid() && View() == History.CacheMessages(old(View()), ch, messages)
      ensures ch in old(messageLogs) ==> messageLogs == old(messageLogs)
      ensures fresh(messageLogs.Values - old(messageLogs.Values))
    {
      hide AssignIds, AssignMessages, Ids, Logs;
      if messages == [] { return; }
      var buffer := AssignAll(messages);
      ghost var st := View();
      var log := EnsureLog(ch);
      assert LogOf(st, ch) == LogOf(old(View()), ch);
      AssignTo(log, buffer);
      Overwrite(st.logs, ch, LogOf(st, ch), Log(AssignIds(LogOf(st, ch).ids, buffer), LogOf(st, ch).complete));
    }

    method CreateMessage(ch: nat, user: nat, content: string)
      requires Valid()
      modifies this`nextId, this`messageCache, this`pendingMessages, this`messageLogs, messageLogs.Values
      ensures Valid() && View() == History.CreateMessage(old(View()), ch, user, content)
    {
      hide AppendId, History.AssignMessage, Logs, Valid;
      var id := nextId;
      nextId := (nextId + 1) % ID_RANGE;
      AppendLog(ch, id);
      AssignMessage(Message(id, ch, user, content));
    }

    /** The id enters the channel's log, which is created when there is none. */
    method AppendLog(ch: nat, id: nat)
      requires Valid()
      modifies this`messageLogs, messageLogs.Values
      ensures Valid()
      ensures View() == old(View()).(logs := old(View()).logs[ch :=
                          LogOf(old(View()), ch).(ids := AppendId(LogOf(old(View()), ch).ids, id))])
    {
      hide AppendId, Logs, Valid;
      ghost var st := View();
      var log := EnsureLog(ch);
      AppendTo(log, id);
      Overwrite(st.logs, ch, LogOf(st, ch), LogOf(st, ch).(ids := AppendId(LogOf(st, ch).ids, id)));
    }

    method GetMessagesBefore(ch: nat, bound: nat, limit: nat) returns (result: seq<Message>)
      requires Valid()
      modifies this`messageCache, this`pendingMessages, this`messageLogs, messageLogs.Values
      ensures Valid() && View() == ReadStore(old(View()), ch, bound, limit)
      ensures result == ReadPage(old(View()), ch, bound, limit)
    {
      ghost var before := View();
      assert before.logs.Keys == messageLogs.Keys;
      hide Logs, FetchRows, PlanRead, ReadStore, ReadPage;
      if ch !in messageLogs {
        ReadNothing(before, ch, bound, limit);
        return [];
      }
      var ids := messageLogs[ch].GetChatMessagesBefore(this, bound, limit);
      ReadFrom(before, ch, bound, limit);
      result := GetMessages(ids);
    }

    /** The loop of GetMessagesBefore: ids that are not cached are skipped. */
    method GetMessages(ids: seq<nat>) returns (result: seq<Message>)
      ensures result == Lookup(messageCache, ids)
    {
      result := [];
      for i := 0 to |ids|
        invariant result == Lookup(messageCache, ids[..i])
      {
        assert ids[..i + 1][..i] == ids[..i];
        if ids[i] in messageCache { result := result + [messageCache[ids[i]]]; }
      }
      assert ids[..|ids|] == ids;
    }

    method PrewarmLog(ch: nat)
      requires Valid()
      modifies this`messageCache, this`pendingMessages, this`messageLogs, messageLogs.Values
      ensures Valid() && View() == PrewarmChannel(old(View()), ch)
      ensures fresh(messageLogs.Values - old(messageLogs.Values))
    {
      hide Logs, Query, AssignMessages, AssignIds;
      var log := EnsureLog(ch);
      var messages := adapter.GetChatMessagesBefore(ch, MAX_ID, PREWARM_COUNT);
      if messages == [] { return; }
      CacheMessages(ch, messages);
    }

    method Prewarm()
      requires Valid() && messageLogs == map[] && messageCache == map[] && pendingMessages == []
      modifies this
      ensures Valid() && View() == History.Prewarm(adapter.rows, adapter.channels)
    {
      latestPersistedId := adapter.GetLastChatMessageId();
      nextId := if latestPersistedId.Some? then (latestPersistedId.value + 1) % ID_RANGE else 0;
      assert View() == StartStore(adapter.rows) by { assert Logs() == map[]; }
      PrewarmLogs();
    }

    /** The loop of Prewarm over the channels of the database. */
    method PrewarmLogs()
      requires Valid() && messageLogs == map[]
      modifies this
      ensures Valid() && View() == PrewarmChannels(old(View()), adapter.channels)
    {
      hide PrewarmChannel, Logs, Valid, View;
      ghost var start := View();
      for i := 0 to |adapter.channels|
        invariant Valid() && fresh(messageLogs.Values)
        invariant View() == PrewarmChannels(start, adapter.channels[..i])
      {
        assert adapter.channels[..i + 1][..i] == adapter.channels[..i];
        PrewarmLog(adapter.channels[i]);
      }
      assert adapter.channels[..|adapter.channels|] == adapter.channels;
    }

    /** The flushing thread without interruption: swap, commit, publish. When the
        database refuses the batch the exception leaves it swapped out. */
    method Persist() returns (accepted: bool)
      requires Valid()
      modifies this`pendingMessages, this`latestPersistedId, adapter
      ensures var s := System(old(View()), Idle, NoRead);
        if old(pendingMessages) == [] then accepted && View() == old(View())
        else
          var swapped := Step(s, Swap);
          var committed := Step(swapped, Commit);
          && accepted == committed.flush.Committed?
          && View() == if accepted then Step(committed, Publish).store else committed.store
    {
      if pendingMessages == [] { return true; }
      var messages := pendingMessages;
      pendingMessages := [];
      var last;
      accepted, last := adapter.PersistChatMessages(messages);
      if accepted { latestPersistedId := last; }
    }
  }

  /** A read that fetches nothing changes nothing. */
  lemma NothingFetched(st: Store, ch: nat, bound: nat, limit: nat)
    ensures PlanFor(st, ch, bound, limit).fetch.None? ==>
      ReadStore(st, ch, bound, limit) == st && FetchRows(st.rows, ch, PlanFor(st, ch, bound, limit)) == []
  {
    hide PlanFor;
  }

  /** A channel without a log has nothing to read. */
  lemma ReadNothing(st: Store, ch: nat, bound: nat, limit: nat)
    requires ch !in st.logs
    ensures ReadStore(st, ch, bound, limit) == st && ReadPage(st, ch, bound, limit) == []
  {
    var plan := PlanFor(st, ch, bound, limit);
    assert plan == Plan(None, []) && FetchRows(st.rows, ch, plan) == [];
    assert Ids([]) + [] == [];
  }

  /** The page is looked up in the cache the read leaves behind. */
  lemma ReadFrom(st: Store, ch: nat, bound: nat, limit: nat)
    ensures var plan := PlanFor(st, ch, bound, limit);
      ReadPage(st, ch, bound, limit)
      == Lookup(ReadStore(st, ch, bound, limit).cache, Ids(FetchRows(st.rows, ch, plan)) + plan.cached)
  {
    hide PlanFor, FetchRows, AssignMessages, AssignIds;
  }

  /** The part of a read that comes from the window leaves the window as it is. */
  lemma CachedPartIsKept(st: Store, ch: nat, bound: nat, limit: nat)
    ensures var plan := PlanFor(st, ch, bound, limit);
      var fetched := FetchRows(st.rows, ch, plan);
      ReadStore(st, ch, bound, limit) == FinishRead(AssignMessages(st, fetched), ch, plan.(cached := []), fetched)
  {
    hide PlanFor, FetchRows, AssignMessages, AssignIds;
  }

  /** Flagging the log and then caching the rows is finishing the read. */
  lemma CachedIsFinished(st: Store, ch: nat, bound: nat, limit: nat, fetched: seq<Message>)
    requires ch in st.logs
    ensures var flagged := st.(logs := st.logs[ch := Log(st.logs[ch].ids, st.logs[ch].complete || limit > |fetched|)]);
      History.CacheMessages(flagged, ch, fetched)
      == FinishRead(AssignMessages(st, fetched), ch, Plan(Some(Fetch(bound, limit)), []), fetched)
  {
    var log := Log(st.logs[ch].ids, st.logs[ch].complete || limit > |fetched|);
    AssignIgnoresLogs(st, st.logs[ch := log], fetched);
    if fetched == [] {
      assert Ids(fetched) == [];
    } else {
      hide AssignIds, AssignMessages;
      Overwrite(st.logs, ch, log, log.(ids := AssignIds(log.ids, Ids(fetched))));
    }
  }

  lemma Overwrite<K, V>(m: map<K, V>, k: K, v: V, w: V)
    ensures m[k := v][k := w] == m[k := w]
  {
  }

  /** Whether a log is complete makes no difference to caching messages. */
  lemma {:induction false} AssignIgnoresLogs(st: Store, logs: map<nat, Log>, ms: seq<Message>)
    ensures AssignMessages(st.(logs := logs), ms) == AssignMessages(st, ms).(logs := logs)
  {
    if ms != [] { AssignIgnoresLogs(st, logs, ms[..|ms| - 1]); }
  }

  lemma SameElements(s: seq<nat>, t: seq<nat>)
    requires multiset(s) == multiset(t)
    ensures forall x :: x in s <==> x in t
  {
    forall x ensures x in s <==> x in t {
      assert x in s <==> x in multiset(s);
      assert x in t <==> x in multiset(t);
    }
  }
}
