/** Who hears what, over every run of the chat server. */
module ServerBroadcasts {
  import opened Sequences
  import opened Table
  import opened Directory
  import opened History
  import opened Server
  import opened ServerInvariant
  import opened ServerTheorems
  import opened ServerAccounts

  /** The i-th entry, if it is a broadcast of one of these events, went to all who
      should hear it: logins, logouts and new channels to every live connection, a
      join to the live members of the channel once the newcomer is one of them. */
  predicate Heard(log: seq<Entry>, i: nat)
    requires i < |log|
  {
    log[i].Cast? ==>
      && (log[i].payload.UserLogin? || log[i].payload.UserLogout? || log[i].payload.ChannelCreate? ==>
            log[i].recipients == LiveOf(log[..i]))
      && (log[i].payload.ChannelJoin? ==>
            && i + 1 < |log| && log[i + 1].Send? && log[i + 1].payload.JoinReply?
            && log[i + 1].payload.channel == log[i].payload.channel
            && log[i].recipients == LiveMembers(log[..i + 2], log[i].payload.channel))
  }

  predicate AllHeard(log: seq<Entry>) {
    forall i: nat | i < |log| :: Heard(log, i)
  }

  /** What has been heard by now, and the live connections as the log shows them. */
  predicate Audible(s: State) {
    AllHeard(s.wire.log) && LiveOf(s.wire.log) == s.wire.live
  }

  lemma HeardStays(log: seq<Entry>, more: seq<Entry>, i: nat)
    requires i < |log| && Heard(log, i)
    ensures Heard(log + more, i)
  {
    hide LiveOf, LiveMembers;
    assert (log + more)[..i] == log[..i];
    if i + 1 < |log| { assert (log + more)[..i + 2] == log[..i + 2]; }
  }

  lemma HeardGrows(log: seq<Entry>, e: Entry)
    requires AllHeard(log) && (e.Cast? ==> !e.payload.ChannelJoin?)
    requires e.Cast? && (e.payload.UserLogin? || e.payload.UserLogout? || e.payload.ChannelCreate?) ==> e.recipients == LiveOf(log)
    ensures AllHeard(log + [e])
  {
    hide LiveOf, LiveMembers;
    forall i: nat | i < |log + [e]| ensures Heard(log + [e], i) {
      if i < |log| { HeardStays(log, [e], i); } else { assert (log + [e])[..i] == log; }
    }
  }

  lemma HeardGrowsByJoin(log: seq<Entry>, e: Entry, f: Entry)
    requires AllHeard(log) && e.Cast? && e.payload.ChannelJoin? && f.Send? && f.payload.JoinReply?
    requires f.payload.channel == e.payload.channel && e.recipients == LiveMembers(log + [e] + [f], e.payload.channel)
    ensures AllHeard(log + [e] + [f])
  {
    hide LiveOf, LiveMembers;
    var all := log + [e] + [f];
    forall i: nat | i < |all| ensures Heard(all, i) {
      if i < |log| {
        HeardStays(log, [e] + [f], i);
        assert all == log + ([e] + [f]);
      } else if i == |log| {
        assert all[..i + 2] == all;
      }
    }
  }

  // ------------------------------------------------------------- what keeps it so

  lemma SentAudible(s: State, c: nat, p: Payload)
    requires Audible(s)
    ensures Audible(Sent(s, c, p))
  {
    var e := Send(c, p, c in s.wire.live);
    HeardGrows(s.wire.log, e);
    LogGrows(s.wire.log, e);
    hide AllHeard, LiveOf;
  }

  lemma AllBroadcastAudible(s: State, p: Payload)
    requires Audible(s) && (p.UserLogin? || p.UserLogout? || p.ChannelCreate?)
    ensures Audible(BroadcastAll(s, p))
  {
    assert s.wire.live * s.wire.live == s.wire.live;
    var e := Cast(s.wire.live * s.wire.live, p);
    HeardGrows(s.wire.log, e);
    LogGrows(s.wire.log, e);
    hide AllHeard, LiveOf;
  }

  lemma ChannelAudible(s: State, to: set<nat>, p: Payload)
    requires Audible(s) && (p.ReceiveChat? || p.ChannelLeave?)
    ensures Audible(Broadcast(s, to, p))
  {
    var e := Cast(to * s.wire.live, p);
    HeardGrows(s.wire.log, e);
    LogGrows(s.wire.log, e);
    hide AllHeard, LiveOf;
  }

  /** Whatever leaves the connections and the log alone. */
  lemma WireAudible(s: State, t: State)
    requires Audible(s) && t.wire == s.wire
    ensures Audible(t)
  {
  }

  lemma AuthenticateAudible(s: State, rows: seq<Message>, c: nat, r: nat, name: string, password: string)
    requires Inv(s, rows) && Known(s, c) && Audible(s)
    ensures Audible(HandleAuthenticate(s, c, r, name, password))
  {
    AuthenticateIs(s, rows, c, r, name, password);
    hide Inv, HandleAuthenticate, MatchCredentials, Audible, Sent, Broadcast;
    var m := MatchCredentials(s.users, name, password);
    if c !in s.users.sessions && m.Some? && m.value.id !in s.users.sessions.Values {
      var t := s.(users := s.users.(sessions := s.users.sessions[c := m.value.id]));
      WireAudible(s, t);
      SentAudible(t, c, AuthenticateReply(r, m.value));
      AllBroadcastAudible(Sent(t, c, AuthenticateReply(r, m.value)), UserLogin(m.value.id));
    } else {
      forall p ensures Audible(Sent(s, c, p)) { SentAudible(s, c, p); }
    }
  }

  lemma RemoveSessionAudible(s: State, rows: seq<Message>, c: nat)
    requires Inv(s, rows) && Audible(s)
    ensures Audible(RemoveSession(s, c))
  {
    RemoveSessionIs(s, rows, c);
    var t := WithUserCache(s, SessionUser(s.users, c).cache);
    WireAudible(s, t);
    hide Inv, RemoveSession, SessionUser, Audible, Broadcast, WithUserCache, Directory.CacheOk;
    if c in s.users.sessions {
      AllBroadcastAudible(t, UserLogout(s.users.sessions[c]));
      var u := BroadcastAll(t, UserLogout(s.users.sessions[c]));
      WireAudible(u, u.(users := u.users.(sessions := u.users.sessions - {c})));
    }
  }

  lemma LogoutAudible(s: State, rows: seq<Message>, c: nat, r: nat)
    requires Inv(s, rows) && Audible(s)
    ensures Audible(HandleLogout(s, c, r))
  {
    RemoveSessionAudible(s, rows, c);
    var t := RemoveSession(s, c);
    var v := t.(channels := t.channels.(joined := t.channels.joined - {c}));
    hide Inv, RemoveSession, Audible, Sent;
    WireAudible(t, v);
    SentAudible(v, c, LogoutReply(r));
    SentAudible(s, c, ErrorReply(r, "Not authorized."));
  }

  lemma EnteredAudible(s: State, rows: seq<Message>, c: nat, r: nat, u: nat, ch: nat)
    requires Inv(s, rows) && Known(s, c) && c in s.users.sessions && ById(s.channels.rows, ch).Some? && Audible(s)
    ensures Audible(Entered(s, c, r, u, ch))
  {
    var t := Entered(s, c, r, u, ch);
    EnteredKeeps(s, rows, c, r, u, ch);
    assert TablesOk(t.channels.joined, t.wire);
    ConnectionsAreMembers(t.channels.joined, t.wire, ch);
    var e := Cast(Connections(s.channels.joined[c := ch], ch) * s.wire.live, ChannelJoin(ch, u));
    var f := Send(c, JoinReply(r, ch), c in s.wire.live);
    assert t.wire.log == s.wire.log + [e] + [f];
    assert t.wire.live == s.wire.live && t.channels.joined == s.channels.joined[c := ch];
    hide Inv, Entered, Connections, LiveMembers, Known, ById;
    HeardGrowsByJoin(s.wire.log, e, f);
    hide AllHeard;
  }

  lemma JoinAudible(s: State, rows: seq<Message>, c: nat, r: nat, ch: nat)
    requires Inv(s, rows) && Known(s, c) && Audible(s)
    ensures Audible(HandleJoin(s, c, r, ch))
  {
    JoinIs(s, rows, c, r, ch);
    var t := WithUserCache(s, SessionUser(s.users, c).cache);
    WireAudible(s, t);
    assert t.users.sessions == s.users.sessions && t.channels == s.channels && (Known(t, c) <==> Known(s, c));
    hide Inv, HandleJoin, Moved, Entered, Sent, SessionUser, ById, WithUserCache, Audible, Known, Broadcast;
    if c !in s.users.sessions {
      SentAudible(s, c, ErrorReply(r, "Not authorized."));
    } else if ById(s.channels.rows, ch).None? {
      SentAudible(t, c, ErrorReply(r, "Channel not found."));
    } else {
      MovedAudible(t, rows, c, r, s.users.sessions[c], ch);
    }
  }

  lemma MovedAudible(s: State, rows: seq<Message>, c: nat, r: nat, u: nat, ch: nat)
    requires Inv(s, rows) && Known(s, c) && c in s.users.sessions && ById(s.channels.rows, ch).Some? && Audible(s)
    ensures Audible(Moved(s, c, r, u, ch))
  {
    MovedIs(s, rows, c, r, u, ch);
    hide Inv, Moved, Entered, ById, Audible, Broadcast;
    if c in s.channels.joined {
      var prior := s.channels.joined[c];
      LeaveKeeps(s, rows, prior, u);
      ChannelAudible(s, Connections(s.channels.joined, prior), ChannelLeave(prior, u));
      var t := ChannelBroadcast(s, prior, ChannelLeave(prior, u));
      LeaveLeaves(s, prior, u);
      EnteredAudible(t, rows, c, r, u, ch);
    } else {
      EnteredAudible(s, rows, c, r, u, ch);
    }
  }

  lemma LeaveLeaves(s: State, ch: nat, u: nat)
    ensures var t := ChannelBroadcast(s, ch, ChannelLeave(ch, u));
      && t.users == s.users && t.channels == s.channels && t.wire.live == s.wire.live && t.wire.closed == s.wire.closed
      && (Connections(s.channels.joined, ch) == {} ==> t == s)
  {
  }

  lemma CreateChannelAudible(s: State, rows: seq<Message>, c: nat, r: nat, name: string, rowid: nat)
    requires Inv(s, rows) && ById(s.channels.rows, rowid) == None && Audible(s)
    ensures Audible(HandleCreateChannel(s, c, r, name, rowid))
  {
    CreateChannelIs(s, rows, c, r, name, rowid);
    var t := WithUserCache(s, SessionUser(s.users, c).cache);
    WireAudible(s, t);
    hide Inv, HandleCreateChannel, ChannelCreated, Sent, SessionUser, ByName, ById, WithUserCache, Audible;
    if c !in s.users.sessions {
      SentAudible(s, c, ErrorReply(r, "Not authorized."));
    } else if ByName(s.channels.rows, name).Some? {
      SentAudible(t, c, CreateChannelReply(r, ByName(s.channels.rows, name).value));
    } else {
      CreatedAudible(t, c, r, Named(rowid, name), s.users.sessions[c]);
    }
  }

  lemma CreatedAudible(s: State, c: nat, r: nat, x: Named, u: nat)
    requires Audible(s)
    ensures Audible(ChannelCreated(s, c, r, x, u))
  {
    var v := s.(channels := s.channels.(rows := s.channels.rows + [x], cache := EmplaceChannel(s.channels.cache, x)));
    WireAudible(s, v);
    hide Audible, Sent, Broadcast, EmplaceChannel;
    SentAudible(v, c, CreateChannelReply(r, x));
    AllBroadcastAudible(Sent(v, c, CreateChannelReply(r, x)), ChannelCreate(x, u));
  }

  lemma LookupAudible(s: State, c: nat, r: nat, q: Request)
    requires q.CreateUser? || q.GetUsers? || q.GetUser? || q.GetChats? || q.GetChannels? || q.GetChannel?
    requires Audible(s)
    ensures Audible(Handle(s, c, r, q))
  {
    hide ReadUsers, ReadUserByName, ReadChannelById, ReadPage, ReadStore, ByName, Audible;
    forall t: State, p | t.wire == s.wire ensures Audible(Sent(t, c, p)) {
      WireAudible(s, t);
      SentAudible(t, c, p);
    }
    hide Sent;
  }

  lemma WriteAudible(s: State, rows: seq<Message>, c: nat, content: string)
    requires Inv(s, rows) && Audible(s)
    ensures Audible(HandleWrite(s, c, content))
  {
    WriteIs(s, rows, c, content);
    var t := WithUserCache(s, SessionUser(s.users, c).cache);
    WireAudible(s, t);
    SentAudible(s, c, ErrorNote("Not authorized."));
    SentAudible(t, c, ErrorNote("No channel joined."));
    hide Inv, HandleWrite, Sent, SessionUser, WithUserCache, Audible, CreateMessage, Broadcast;
    if c in s.users.sessions && c in s.channels.joined {
      var ch, u := s.channels.joined[c], s.users.sessions[c];
      WireAudible(t, Stored(t, ch, u, content));
      ChannelAudible(Stored(t, ch, u, content), Connections(t.channels.joined, ch), ReceiveChat(u, ch, content));
    }
  }

  lemma ConnectionsAudible(s: State, e: Event)
    requires Server.Enabled(s, e) && (e.Connect? || e.Close? || e.Shutdown? || e.Persist?) && Audible(s)
    ensures Audible(Server.Step(s, e))
  {
    if e.Connect? {
      HeardGrows(s.wire.log, Opened(s.wire.next));
      LogGrows(s.wire.log, Opened(s.wire.next));
    }
    if e.Close? {
      HeardGrows(s.wire.log, Gone(e.c));
      LogGrows(s.wire.log, Gone(e.c));
    }
    if e.Shutdown? { SentAudible(s, e.c, ErrorNote("Not authorized.")); }
    hide AllHeard, LiveOf, Sent, History.Step;
  }

  lemma HandleAudible(s: State, rows: seq<Message>, c: nat, r: nat, q: Request)
    requires Inv(s, rows) && Known(s, c) && FreshIds(s, q) && Audible(s)
    ensures Audible(Handle(s, c, r, q))
  {
    hide Inv, Known, ById, Audible, HandleAuthenticate, HandleJoin, HandleCreateChannel, HandleLogout, HandleCreateUser,
      HandleGetUsers, HandleGetUser, HandleGetChats, HandleGetChannels, HandleGetChannel;
    match q
    case Authenticate(name, password) => AuthenticateAudible(s, rows, c, r, name, password);
    case Join(ch) => JoinAudible(s, rows, c, r, ch);
    case CreateChannel(name, rowid) => CreateChannelAudible(s, rows, c, r, name, rowid);
    case Logout => LogoutAudible(s, rows, c, r);
    case _ => LookupAudible(s, c, r, q);
  }

  lemma AudibleStep(s: State, rows: seq<Message>, e: Event)
    requires Inv(s, rows) && Server.Enabled(s, e) && Audible(s)
    ensures Audible(Server.Step(s, e))
  {
    hide Inv, Known, Audible, Handle, HandleWrite, HandleShutdown, RemoveSession, History.Step, History.Enabled;
    match e
    case Drop(c) => RemoveSessionAudible(s, rows, c);
    case Write(c, content) => WriteAudible(s, rows, c, content);
    case Ask(c, r, q) => HandleAudible(s, rows, c, r, q);
    case _ => ConnectionsAudible(s, e);
  }

  lemma {:induction false} AudibleRun(s: State, rows: seq<Message>, events: seq<Event>)
    requires Inv(s, rows) && Server.Runs(s, events) && Audible(s)
    ensures Audible(Server.Exec(s, events))
    decreases |events|
  {
    hide Inv, Audible, Server.Step, Server.Enabled;
    if events != [] {
      AudibleStep(s, rows, events[0]);
      ServerInvariant.StepKeeps(s, rows, events[0]);
      AudibleRun(Server.Step(s, events[0]), rows, events[1..]);
    }
  }

  // -------------------------------------------------------------------- theorems

  /** In every run: every login, logout and channel creation was told to exactly the
      connections live at that moment; every join to exactly the live members of its
      channel as they are once the join has been answered. */
  lemma EventsAreHeard(d: Data, events: seq<Event>, i: nat)
    requires ValidData(d) && Server.Runs(Initial(d), events)
    requires var log := Server.Exec(Initial(d), events).wire.log; i < |log| && log[i].Cast?
    ensures var log := Server.Exec(Initial(d), events).wire.log;
      && (log[i].payload.UserLogin? || log[i].payload.UserLogout? || log[i].payload.ChannelCreate? ==>
            log[i].recipients == LiveOf(log[..i]))
      && (log[i].payload.ChannelJoin? ==>
            i + 1 < |log| && log[i].recipients == LiveMembers(log[..i + 2], log[i].payload.channel))
  {
    InitialOk(d);
    assert Audible(Initial(d));
    hide Initial, Inv, Server.Runs, Server.Exec;
    AudibleRun(Initial(d), d.messages, events);
    var log := Server.Exec(Initial(d), events).wire.log;
    assert Heard(log, i);
    hide LiveOf, LiveMembers;
  }

  /** The users online to a connection that starts from the truth after the first `i`
      entries and goes by the broadcasts it hears. */
  function Followed(log: seq<Entry>, i: nat, c: nat): set<nat> {
    if log == [] || |log| <= i then OnlineOf(log)
    else
      var before := Followed(log[..|log| - 1], i, c);
      var last := log[|log| - 1];
      if last.Cast? && c in last.recipients && last.payload.UserLogin? then before + {last.payload.user}
      else if last.Cast? && c in last.recipients && last.payload.UserLogout? then before - {last.payload.user}
      else before
  }

  /** Logins and logouts reach every live connection; unlike the joins' audience this
      says nothing about later entries, so it holds of every front of the log. */
  predicate Loud(log: seq<Entry>) {
    forall i: nat | i < |log| :: log[i].Cast? && (log[i].payload.UserLogin? || log[i].payload.UserLogout?) ==>
      log[i].recipients == LiveOf(log[..i])
  }

  lemma {:induction false} FollowedIsOnline(log: seq<Entry>, i: nat, c: nat)
    requires Loud(log) && forall j | i <= j <= |log| :: c in LiveOf(log[..j])
    ensures Followed(log, i, c) == OnlineOf(log)
    decreases |log|
  {
    if log != [] && i < |log| {
      var front := log[..|log| - 1];
      assert forall k: nat | k < |front| :: front[k] == log[k] && front[..k] == log[..k];
      assert forall j | i <= j <= |front| :: front[..j] == log[..j];
      hide LiveOf, LiveMembers;
      FollowedIsOnline(front, i, c);
    }
  }

  /** Whoever is online to a connection that stays, by the broadcasts it is a
      recipient of, is exactly who has a session: nothing it needs passes it by. */
  lemma PresenceCanBeFollowed(d: Data, events: seq<Event>, i: nat, c: nat)
    requires ValidData(d) && Server.Runs(Initial(d), events)
    requires forall j: nat | i <= j <= |Server.Exec(Initial(d), events).wire.log| ::
      c in LiveOf(Server.Exec(Initial(d), events).wire.log[..j])
    ensures var s := Server.Exec(Initial(d), events); Followed(s.wire.log, i, c) == s.users.sessions.Values
  {
    InitialOk(d);
    assert Audible(Initial(d));
    hide Initial, Inv, Server.Runs, Server.Exec;
    AudibleRun(Initial(d), d.messages, events);
    OnlineIsAnnounced(d, events);
    var log := Server.Exec(Initial(d), events).wire.log;
    assert Loud(log) by {
      forall k: nat | k < |log| ensures log[k].Cast? && (log[k].payload.UserLogin? || log[k].payload.UserLogout?) ==>
        log[k].recipients == LiveOf(log[..k])
      {
        assert Heard(log, k);
      }
    }
    hide LiveOf, LiveMembers, Loud, OnlineOf;
    FollowedIsOnline(log, i, c);
  }
}
