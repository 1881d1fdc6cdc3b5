/** What the server's events do over whole runs: who is connected, who may shut the
    server down, which channels there are, and what is written and to whom it goes. */
module ServerEvents {
  import opened Sequences
  import opened Table
  import opened Directory
  import opened History
  import opened Server
  import opened ServerInvariant
  import opened ServerTheorems
  import opened ServerSessions
  import opened ServerAccounts
  import HI = HistoryInvariant
  import HT = HistoryTheorems

  // ----------------------------------------------------------- at some event of a run

  /** At some event of the run, in the state it finds. */
  ghost predicate Sometime(s: State, events: seq<Event>, p: (State, Event) -> bool)
    requires Server.Runs(s, events)
  {
    exists i: nat | i < |events| :: p(StateAt(s, events, i), events[i])
  }

  lemma SometimeIs(s: State, events: seq<Event>, p: (State, Event) -> bool)
    requires Server.Runs(s, events)
    ensures Sometime(s, events, p) <==> exists i: nat | i < |events| :: p(StateAt(s, events, i), events[i])
  {
  }

  lemma SometimeSplits(s: State, events: seq<Event>, p: (State, Event) -> bool)
    requires Server.Runs(s, events) && events != []
    ensures Sometime(s, events, p) <==> p(s, events[0]) || Sometime(Server.Step(s, events[0]), events[1..], p)
  {
    hide Server.Step, Server.Enabled;
    var t := Server.Step(s, events[0]);
    if i: nat :| i < |events| && p(StateAt(s, events, i), events[i]) {
      if i > 0 { assert p(StateAt(t, events[1..], i - 1), events[1..][i - 1]); }
    }
    if p(s, events[0]) { assert p(StateAt(s, events, 0), events[0]); }
    if j: nat :| j < |events[1..]| && p(StateAt(t, events[1..], j), events[1..][j]) {
      assert p(StateAt(s, events, j + 1), events[j + 1]);
    }
  }

  /** What a step makes true exactly at certain events, and none makes false, is true
      after a run exactly if it was so before or at one of those events. */
  lemma {:induction false} Latches(s: State, rows: seq<Message>, events: seq<Event>, f: State -> bool, p: (State, Event) -> bool)
    requires Inv(s, rows) && Server.Runs(s, events)
    requires forall t, e | Inv(t, rows) && Server.Enabled(t, e) :: f(Server.Step(t, e)) <==> f(t) || p(t, e)
    ensures f(Server.Exec(s, events)) <==> f(s) || Sometime(s, events, p)
    decreases |events|
  {
    hide Inv, Server.Step, Server.Enabled, Sometime;
    if events != [] {
      ServerInvariant.StepKeeps(s, rows, events[0]);
      Latches(Server.Step(s, events[0]), rows, events[1..], f, p);
      SometimeSplits(s, events, p);
    } else {
      assert !Sometime(s, events, p) by { NothingHappens(s, events, p); }
    }
  }

  lemma NothingHappens(s: State, events: seq<Event>, p: (State, Event) -> bool)
    requires events == []
    ensures !Sometime(s, events, p)
  {
  }

  // ---------------------------------------------------------------- connections

  /** No request, message or disconnect handler touches the connections. */
  lemma ConnectionsStep(s: State, rows: seq<Message>, e: Event)
    requires Inv(s, rows) && Server.Enabled(s, e)
    ensures var t := Server.Step(s, e);
      && t.wire.next == s.wire.next + (if e == Connect then 1 else 0)
      && t.wire.live == (if e == Connect then s.wire.live + {s.wire.next} else if e.Close? then s.wire.live - {e.c} else s.wire.live)
      && t.wire.closed == (if e.Close? then s.wire.closed + {e.c} else s.wire.closed)
  {
    hide SessionUser, AssignedChannel, ReadUsers, ReadUserByName, ReadChannelById, ReadChannelByName, ReadPage, ReadStore,
      MatchCredentials, AssignSession, Connections, ById, ByName, EmplaceChannel, EmplacedChannel, CreateMessage,
      History.Step, History.Enabled, Inv;
    match e
    case Ask(c, r, q) => HandleLeavesConnections(s, c, r, q);
      hide Handle;
    case _ =>
  }

  lemma HandleLeavesConnections(s: State, c: nat, r: nat, q: Request)
    ensures var t := Handle(s, c, r, q).wire; t.next == s.wire.next && t.live == s.wire.live && t.closed == s.wire.closed
  {
    hide SessionUser, AssignedChannel, ReadUsers, ReadUserByName, ReadChannelById, ReadChannelByName, ReadPage, ReadStore,
      MatchCredentials, AssignSession, Connections, ById, ByName, EmplaceChannel, EmplacedChannel;
  }

  lemma {:induction false} ConnectionsRun(s: State, rows: seq<Message>, events: seq<Event>, c: nat)
    requires Inv(s, rows) && Server.Runs(s, events)
    ensures var t := Server.Exec(s, events).wire;
      && t.next == s.wire.next + multiset(events)[Connect]
      && (c in t.closed <==> c in s.wire.closed || Close(c) in events)
      && (c in t.live <==> (c in s.wire.live || s.wire.next <= c < t.next) && Close(c) !in events)
    decreases |events|
  {
    if events != [] {
      LiveWasMade(s, rows, events[0], c);
      ConnectionsStep(s, rows, events[0]);
      ServerInvariant.StepKeeps(s, rows, events[0]);
      hide Inv, Server.Step, Server.Enabled;
      ConnectionsRun(Server.Step(s, events[0]), rows, events[1..], c);
      assert events == [events[0]] + events[1..];
    }
  }

  lemma LiveWasMade(s: State, rows: seq<Message>, e: Event, c: nat)
    requires Inv(s, rows) && Server.Enabled(s, e)
    ensures c in s.wire.live ==> c < s.wire.next
    ensures e == Close(c) ==> c in s.wire.live
  {
  }

  /** In every run: as many connections were made as there are connect events, with
      ids from 1 up; one of them is closed exactly if its close is among the events,
      and live exactly if it is not. */
  lemma LiveIff(d: Data, events: seq<Event>, c: nat)
    requires ValidData(d) && Server.Runs(Initial(d), events)
    ensures var w := Server.Exec(Initial(d), events).wire;
      && (c in w.live <==> 1 <= c <= multiset(events)[Connect] && Close(c) !in events)
      && (c in w.closed <==> Close(c) in events)
  {
    InitialOk(d);
    assert Initial(d).wire == Wire(1, {}, {}, []);
    hide Initial, Inv, Server.Runs, Server.Exec;
    ConnectionsRun(Initial(d), d.messages, events, c);
  }

  // ------------------------------------------------------------------- shutdown

  predicate MayShutDown(s: State, e: Event) {
    e.Shutdown? && e.c in s.users.sessions
  }

  lemma QuittingStep(s: State, e: Event)
    requires Server.Enabled(s, e)
    ensures Server.Step(s, e).quitting <==> s.quitting || (e.Shutdown? && e.c in s.users.sessions)
  {
    hide SessionUser, AssignedChannel, ReadUsers, ReadUserByName, ReadChannelById, ReadChannelByName, ReadPage, ReadStore,
      MatchCredentials, AssignSession, Connections, ById, ByName, EmplaceChannel, EmplacedChannel, CreateMessage,
      History.Step, History.Enabled;
    match e
    case Ask(c, r, q) => HandleNeverQuits(s, c, r, q);
      hide Handle;
    case _ =>
  }

  lemma HandleNeverQuits(s: State, c: nat, r: nat, q: Request)
    ensures Handle(s, c, r, q).quitting == s.quitting
  {
    hide SessionUser, AssignedChannel, ReadUsers, ReadUserByName, ReadChannelById, ReadChannelByName, ReadPage, ReadStore,
      MatchCredentials, AssignSession, Connections, ById, ByName, EmplaceChannel, EmplacedChannel;
  }

  /** The server is shutting down after a run exactly if at some event of it a
      connection that had a session just then asked for it. */
  lemma QuittingIff(d: Data, events: seq<Event>)
    requires ValidData(d) && Server.Runs(Initial(d), events)
    ensures Server.Exec(Initial(d), events).quitting <==>
            exists i: nat | i < |events| ::
              events[i].Shutdown? && events[i].c in StateAt(Initial(d), events, i).users.sessions
  {
    var s := Initial(d);
    InitialOk(d);
    assert !s.quitting;
    forall t, e | Inv(t, d.messages) && Server.Enabled(t, e)
      ensures Server.Step(t, e).quitting <==> t.quitting || MayShutDown(t, e)
    {
      QuittingStep(t, e);
    }
    hide Initial, Inv, Server.Runs, Server.Exec, Server.Step, Server.Enabled, StateAt;
    Latches(s, d.messages, events, (t: State) => t.quitting, MayShutDown);
  }

  // ------------------------------------------------------------------- channels

  /** A request that creates a channel: its connection has a session and the name is free. */
  predicate Creates(s: State, e: Event) {
    e.Ask? && e.q.CreateChannel? && e.c in s.users.sessions && ByName(s.channels.rows, e.q.name).None?
  }

  lemma RequestLeavesChannels(s: State, c: nat, r: nat, q: Request)
    requires !q.CreateChannel?
    ensures Handle(s, c, r, q).channels.rows == s.channels.rows
  {
    hide SessionUser, AssignedChannel, ReadUsers, ReadUserByName, ReadChannelById, ReadChannelByName, ReadPage, ReadStore,
      MatchCredentials, AssignSession, Connections, ById, ByName, EmplaceChannel, EmplacedChannel;
  }

  lemma CreationAddsChannel(s: State, rows: seq<Message>, c: nat, r: nat, name: string, rowid: nat)
    requires Inv(s, rows) && ById(s.channels.rows, rowid) == None
    ensures HandleCreateChannel(s, c, r, name, rowid).channels.rows
         == s.channels.rows + if Creates(s, Ask(c, r, CreateChannel(name, rowid))) then [Named(rowid, name)] else []
  {
    CreateChannelIs(s, rows, c, r, name, rowid);
    hide Inv, HandleCreateChannel, SessionUser, ById, ByName, EmplaceChannel;
  }

  lemma ChannelsStep(s: State, rows: seq<Message>, e: Event)
    requires Inv(s, rows) && Server.Enabled(s, e)
    ensures Server.Step(s, e).channels.rows
         == s.channels.rows + if Creates(s, e) then [Named(e.q.rowid, e.q.name)] else []
  {
    if e.Ask? && e.q.CreateChannel? {
      CreationAddsChannel(s, rows, e.c, e.request, e.q.name, e.q.rowid);
      hide Inv, HandleCreateChannel, Creates, ById;
    } else {
      OthersLeaveChannels(s, e);
      hide Inv, Server.Step, Server.Enabled;
    }
  }

  lemma OthersLeaveChannels(s: State, e: Event)
    requires Server.Enabled(s, e) && !(e.Ask? && e.q.CreateChannel?)
    ensures Server.Step(s, e).channels.rows == s.channels.rows
  {
    if e.Ask? { RequestLeavesChannels(s, e.c, e.request, e.q); }
    hide SessionUser, AssignedChannel, Connections, CreateMessage, History.Step, History.Enabled, Handle;
  }

  lemma {:induction false} ChannelsEndure(s: State, rows: seq<Message>, events: seq<Event>)
    requires Inv(s, rows) && Server.Runs(s, events)
    ensures s.channels.rows <= Server.Exec(s, events).channels.rows
    decreases |events|
  {
    hide Inv, Server.Step, Server.Enabled, Creates;
    if events != [] {
      ChannelsStep(s, rows, events[0]);
      ServerInvariant.StepKeeps(s, rows, events[0]);
      ChannelsEndure(Server.Step(s, events[0]), rows, events[1..]);
    }
  }

  /** In every run, the channels are those of the start and those that some event of
      the run created: a request, by a connection with a session just then, under a
      name then free, with the row's id and name. */
  lemma ChannelsIff(d: Data, events: seq<Event>, x: Named)
    requires ValidData(d) && Server.Runs(Initial(d), events)
    ensures x in Server.Exec(Initial(d), events).channels.rows <==>
            x in d.channels || exists i: nat | i < |events| ::
              Creates(StateAt(Initial(d), events, i), events[i]) && x == Named(events[i].q.rowid, events[i].q.name)
  {
    var s := Initial(d);
    InitialOk(d);
    assert s.channels.rows == d.channels;
    hide Initial, Inv, Server.Runs, Server.Exec, Server.Step, Server.Enabled, StateAt, Creates;
    var p := (t: State, e: Event) => Creates(t, e) && x == Named(e.q.rowid, e.q.name);
    forall t, e | Inv(t, d.messages) && Server.Enabled(t, e)
      ensures x in Server.Step(t, e).channels.rows <==> x in t.channels.rows || p(t, e)
    {
      ChannelsStep(t, d.messages, e);
    }
    Latches(s, d.messages, events, (t: State) => x in t.channels.rows, p);
    SometimeIs(s, events, p);
  }

  /** Creating a channel: the requester is answered, then every live connection is
      told the channel and who made it. */
  lemma CreationReaches(s: State, rows: seq<Message>, c: nat, r: nat, name: string, rowid: nat)
    requires Inv(s, rows) && FreshIds(s, CreateChannel(name, rowid)) && Creates(s, Ask(c, r, CreateChannel(name, rowid)))
    ensures HandleCreateChannel(s, c, r, name, rowid).wire.log
         == s.wire.log + [Send(c, CreateChannelReply(r, Named(rowid, name)), c in LiveOf(s.wire.log))]
            + [Cast(LiveOf(s.wire.log), ChannelCreate(Named(rowid, name), s.users.sessions[c]))]
  {
    CreateChannelIs(s, rows, c, r, name, rowid);
    assert LiveOf(s.wire.log) == s.wire.live;
    assert s.wire.live * s.wire.live == s.wire.live;
    hide Inv, HandleCreateChannel, SessionUser, ById, ByName, EmplaceChannel, LiveOf;
  }

  /** Round trip over runs: a channel that has been created is found by its id and
      can be joined, and its name stays taken, whatever happens afterwards. */
  lemma CreatedChannelIsFound(s: State, rows: seq<Message>, c: nat, r: nat, name: string, rowid: nat, events: seq<Event>,
                              d: nat, q: nat, other: nat)
    requires Inv(s, rows) && Server.Enabled(s, Ask(c, r, CreateChannel(name, rowid)))
    requires Creates(s, Ask(c, r, CreateChannel(name, rowid)))
    requires Server.Runs(HandleCreateChannel(s, c, r, name, rowid), events)
    ensures var z := Server.Exec(HandleCreateChannel(s, c, r, name, rowid), events);
      d in z.users.sessions ==>
        && Answer(z, d, q, GetChannel(rowid)) == ChannelReply(q, Named(rowid, name))
        && Answer(z, d, q, Join(rowid)) == JoinReply(q, rowid)
        && Answer(z, d, q, CreateChannel(name, other)) == CreateChannelReply(q, Named(rowid, name))
  {
    var x := Named(rowid, name);
    var t := HandleCreateChannel(s, c, r, name, rowid);
    ChannelAppears(s, rows, c, r, name, rowid);
    CreateChannelKeeps(s, rows, c, r, name, rowid);
    hide HandleCreateChannel, Server.Runs, Server.Exec, Server.Enabled, ById, ByName, Inv, Creates, Answer;
    var z := Server.Exec(t, events);
    ChannelsEndure(t, rows, events);
    ServerInvariant.RunKeeps(t, rows, events);
    assert x in z.channels.rows;
    ChannelAnswers(z, rows, x, d, q, other);
  }

  lemma ChannelAppears(s: State, rows: seq<Message>, c: nat, r: nat, name: string, rowid: nat)
    requires Inv(s, rows) && Server.Enabled(s, Ask(c, r, CreateChannel(name, rowid)))
    requires Creates(s, Ask(c, r, CreateChannel(name, rowid)))
    ensures Named(rowid, name) in HandleCreateChannel(s, c, r, name, rowid).channels.rows
  {
    ChannelsStep(s, rows, Ask(c, r, CreateChannel(name, rowid)));
    hide Inv, HandleCreateChannel, Creates;
  }

  lemma ChannelAnswers(s: State, rows: seq<Message>, x: Named, d: nat, q: nat, other: nat)
    requires Inv(s, rows) && x in s.channels.rows
    ensures d in s.users.sessions ==>
        && Answer(s, d, q, GetChannel(x.id)) == ChannelReply(q, x)
        && Answer(s, d, q, Join(x.id)) == JoinReply(q, x.id)
        && Answer(s, d, q, CreateChannel(x.name, other)) == CreateChannelReply(q, x)
  {
    LookupExact(s.channels.rows, x);
    hide UsersOk, PresenceOk, TablesOk, HistoryOk, ById, ByName, Inv;
  }

  // ------------------------------------------------------------------- messages

  /** A message that will be kept: its connection has a session and has joined a channel. */
  predicate Speaks(s: State, e: Event) {
    e.Write? && e.c in s.users.sessions && MemberOf(s.wire.log, e.c).Some?
  }

  /** What is written by it. */
  function Spoke(s: State, e: Event): Message
    requires Speaks(s, e)
  {
    Message(s.history.store.nextId, MemberOf(s.wire.log, e.c).value, s.users.sessions[e.c], e.content)
  }

  /** What one message does, in full: without a session or a channel its sender gets
      an error and nothing is written; otherwise it is written under the next id and
      goes to exactly the live members of the sender's channel. */
  lemma WriteReaches(s: State, rows: seq<Message>, c: nat, content: string)
    requires Inv(s, rows) && s.history.store.nextId < 0xFFFF_FFFF
    ensures var t := HandleWrite(s, c, content);
      var m := MemberOf(s.wire.log, c);
      && t.wire.log == s.wire.log +
           (if c !in s.users.sessions then [Send(c, ErrorNote("Not authorized."), c in LiveOf(s.wire.log))]
            else if m.None? then [Send(c, ErrorNote("No channel joined."), c in LiveOf(s.wire.log))]
            else [Cast(LiveMembers(s.wire.log, m.value), ReceiveChat(s.users.sessions[c], m.value, content))])
      && Written(t.history) == Written(s.history) +
           (if c in s.users.sessions && m.Some? then [Message(s.history.store.nextId, m.value, s.users.sessions[c], content)] else [])
  {
    WriteIs(s, rows, c, content);
    MemberNow(s, rows, c);
    assert LiveOf(s.wire.log) == s.wire.live && HistoryOk(s.history, s.wire.log, rows);
    hide Inv, HandleWrite, SessionUser, MemberOf, LiveOf, LiveMembers, CreateMessage;
    if c in s.users.sessions && c in s.channels.joined {
      ConnectionsAreMembers(s.channels.joined, s.wire, s.channels.joined[c]);
      CreateHistory(s.history, s.channels.joined[c], s.users.sessions[c], content);
    }
    hide TablesOk, Connections, HistoryOk, Written;
  }

  lemma WrittenStep(s: State, rows: seq<Message>, e: Event)
    requires Inv(s, rows) && Server.Enabled(s, e)
    ensures Written(Server.Step(s, e).history) == Written(s.history) + if Speaks(s, e) then [Spoke(s, e)] else []
  {
    if e.Write? {
      WriteReaches(s, rows, e.c, e.content);
      hide Inv, HandleWrite, MemberOf, Written;
    } else {
      assert HistoryOk(s.history, s.wire.log, rows);
      hide SessionUser, AssignedChannel, Connections, History.Step, History.Enabled, Inv, Written;
      if e.Ask? { RequestWritesNothing(s, rows, e.c, e.request, e.q); }
      if e.Persist? { FlushKeeps(s.history, e.step); }
      hide Handle, HistoryOk;
    }
  }

  lemma RequestWritesNothing(s: State, rows: seq<Message>, c: nat, r: nat, q: Request)
    requires Inv(s, rows)
    ensures Written(Handle(s, c, r, q).history) == Written(s.history)
  {
    if q.GetChats? {
      ReadWritesNothing(s, rows, c, r, q.channel, q.limit);
    } else {
      RequestLeavesHistory(s, c, r, q);
    }
    hide *;
  }

  lemma ReadWritesNothing(s: State, rows: seq<Message>, c: nat, r: nat, ch: nat, limit: nat)
    requires Inv(s, rows)
    ensures Written(Handle(s, c, r, GetChats(ch, limit)).history) == Written(s.history)
  {
    assert HistoryOk(s.history, s.wire.log, rows);
    ReadIs(s, c, r, ch, limit);
    hide Inv, Handle, Written, ReadPage, ReadStore, HI.Inv, SaidIn, Channel, Transcript, Query;
    ReadHistory(s.history, ch, limit);
  }

  lemma ReadIs(s: State, c: nat, r: nat, ch: nat, limit: nat)
    ensures Handle(s, c, r, GetChats(ch, limit)).history
         == if c in s.users.sessions then s.history.(store := ReadStore(s.history.store, ch, MAX_ID, limit)) else s.history
  {
    hide ReadStore, ReadPage;
  }

  lemma RequestLeavesHistory(s: State, c: nat, r: nat, q: Request)
    requires !q.GetChats?
    ensures Handle(s, c, r, q).history == s.history
  {
    hide SessionUser, AssignedChannel, ReadUsers, ReadUserByName, ReadChannelById, ReadChannelByName, MatchCredentials,
      AssignSession, Connections, ById, ByName, EmplaceChannel, EmplacedChannel;
  }

  /** In every run, a message is in the history exactly if the database held it at the
      start or some event of the run wrote it: by a connection that had a session and
      was in the channel just then, in the name of the session's user. Nothing is
      lost, nothing is made up. */
  lemma WrittenIff(d: Data, events: seq<Event>, m: Message)
    requires ValidData(d) && Server.Runs(Initial(d), events)
    ensures m in Written(Server.Exec(Initial(d), events).history) <==>
            m in d.messages || exists i: nat | i < |events| ::
              Speaks(StateAt(Initial(d), events, i), events[i]) && m == Spoke(StateAt(Initial(d), events, i), events[i])
  {
    var s := Initial(d);
    StartsWritten(d);
    hide *;
    var p := (t: State, e: Event) => Speaks(t, e) && m == Spoke(t, e);
    forall t, e | Inv(t, d.messages) && Server.Enabled(t, e)
      ensures m in Written(Server.Step(t, e).history) <==> m in Written(t.history) || p(t, e)
    {
      WrittenStep(t, d.messages, e);
    }
    Latches(s, d.messages, events, (t: State) => m in Written(t.history), p);
    SometimeIs(s, events, p);
  }

  lemma StartsWritten(d: Data)
    requires ValidData(d)
    ensures Inv(Initial(d), d.messages) && Written(Initial(d).history) == d.messages
  {
    InitialOk(d);
    HT.PrewarmEstablishes(d.messages, IdsOf(d.channels));
    hide Inv, HT.Start, Written, ValidDatabase, HI.Inv;
  }
}
