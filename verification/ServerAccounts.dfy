/** Who is online, as the broadcasts tell it, and what becomes of accounts, over
    every run of the chat server. */
module ServerAccounts {
  import opened Sequences
  import opened Table
  import opened Directory
  import opened History
  import opened Server
  import opened ServerInvariant
  import opened ServerTheorems

  // ------------------------------------------------------------------ presence

  /** The users a client believes to be online when it follows the broadcasts. */
  function OnlineOf(log: seq<Entry>): set<nat> {
    if log == [] then {}
    else
      var before := OnlineOf(log[..|log| - 1]);
      var last := log[|log| - 1];
      if last.Cast? && last.payload.UserLogin? then before + {last.payload.user}
      else if last.Cast? && last.payload.UserLogout? then before - {last.payload.user}
      else before
  }

  predicate Announced(s: State) {
    OnlineOf(s.wire.log) == s.users.sessions.Values
  }

  predicate Presence(p: Payload) {
    p.UserLogin? || p.UserLogout?
  }

  /** Neither the sessions nor what is said about them has changed. */
  predicate Hushed(s: State, t: State) {
    t.users.sessions == s.users.sessions && OnlineOf(t.wire.log) == OnlineOf(s.wire.log)
  }

  lemma OnlineGrows(log: seq<Entry>, e: Entry)
    ensures OnlineOf(log + [e]) ==
      if e.Cast? && e.payload.UserLogin? then OnlineOf(log) + {e.payload.user}
      else if e.Cast? && e.payload.UserLogout? then OnlineOf(log) - {e.payload.user}
      else OnlineOf(log)
  {
    assert (log + [e])[..|log|] == log;
  }

  lemma SentHushed(s: State, t: State, c: nat, p: Payload)
    requires Hushed(s, t)
    ensures Hushed(s, Sent(t, c, p))
  {
    OnlineGrows(t.wire.log, Send(c, p, c in t.wire.live));
  }

  lemma BroadcastHushed(s: State, t: State, to: set<nat>, p: Payload)
    requires Hushed(s, t) && !Presence(p)
    ensures Hushed(s, Broadcast(t, to, p))
  {
    OnlineGrows(t.wire.log, Cast(to * t.wire.live, p));
  }

  lemma ChannelHushed(s: State, t: State, ch: nat, p: Payload)
    requires Hushed(s, t) && !Presence(p)
    ensures Hushed(s, ChannelBroadcast(t, ch, p))
  {
    BroadcastHushed(s, t, Connections(t.channels.joined, ch), p);
  }

  lemma Unlogged(s: State, t: State)
    requires t.wire == s.wire && t.users.sessions == s.users.sessions
    ensures Hushed(s, t)
  {
  }

  /** A reply and at most lookups before it. */
  lemma AnswerHushed(s: State, t: State, c: nat, p: Payload)
    requires t.wire == s.wire && t.users.sessions == s.users.sessions
    ensures Hushed(s, Sent(t, c, p))
  {
    SentHushed(s, t, c, p);
  }

  lemma EnteredHushed(s: State, t: State, c: nat, r: nat, u: nat, ch: nat)
    requires Hushed(s, t)
    ensures Hushed(s, Entered(t, c, r, u, ch))
  {
    var v := t.(channels := t.channels.(joined := t.channels.joined[c := ch]));
    var to := Connections(v.channels.joined, ch);
    BroadcastHushed(s, v, to, ChannelJoin(ch, u));
    SentHushed(s, Broadcast(v, to, ChannelJoin(ch, u)), c, JoinReply(r, ch));
    hide Hushed, Sent, Broadcast, Connections;
  }

  lemma JoinHushed(s: State, rows: seq<Message>, c: nat, r: nat, ch: nat)
    requires Inv(s, rows)
    ensures Hushed(s, HandleJoin(s, c, r, ch))
  {
    JoinIs(s, rows, c, r, ch);
    var t := WithUserCache(s, SessionUser(s.users, c).cache);
    assert t.wire == s.wire && t.users.sessions == s.users.sessions;
    AnswerHushed(s, s, c, ErrorReply(r, "Not authorized."));
    AnswerHushed(s, t, c, ErrorReply(r, "Channel not found."));
    Unlogged(s, t);
    hide Inv, HandleJoin, Hushed, Moved, Entered, Sent, SessionUser, ById, WithUserCache, ChannelBroadcast;
    if c in s.users.sessions && ById(s.channels.rows, ch).Some? {
      var u := s.users.sessions[c];
      MovedIs(t, rows, c, r, u, ch);
      if c in t.channels.joined {
        var prior := t.channels.joined[c];
        ChannelHushed(s, t, prior, ChannelLeave(prior, u));
        EnteredHushed(s, ChannelBroadcast(t, prior, ChannelLeave(prior, u)), c, r, u, ch);
      } else {
        EnteredHushed(s, t, c, r, u, ch);
      }
    }
  }

  lemma ChannelCreatedHushed(s: State, t: State, c: nat, r: nat, x: Named, u: nat)
    requires t.wire == s.wire && t.users.sessions == s.users.sessions
    ensures Hushed(s, ChannelCreated(t, c, r, x, u))
  {
    var v := t.(channels := t.channels.(rows := t.channels.rows + [x], cache := EmplaceChannel(t.channels.cache, x)));
    AnswerHushed(s, v, c, CreateChannelReply(r, x));
    var w := Sent(v, c, CreateChannelReply(r, x));
    hide Hushed, Sent, Broadcast, EmplaceChannel;
    BroadcastHushed(s, w, w.wire.live, ChannelCreate(x, u));
  }

  lemma CreateChannelHushed(s: State, rows: seq<Message>, c: nat, r: nat, name: string, rowid: nat)
    requires Inv(s, rows) && ById(s.channels.rows, rowid) == None
    ensures Hushed(s, HandleCreateChannel(s, c, r, name, rowid))
  {
    CreateChannelIs(s, rows, c, r, name, rowid);
    var t := WithUserCache(s, SessionUser(s.users, c).cache);
    assert t.wire == s.wire && t.users.sessions == s.users.sessions;
    hide Inv, HandleCreateChannel, ChannelCreated, Hushed, Sent, SessionUser, ByName, ById, WithUserCache;
    if c !in s.users.sessions {
      AnswerHushed(s, s, c, ErrorReply(r, "Not authorized."));
    } else if ByName(s.channels.rows, name).Some? {
      AnswerHushed(s, t, c, CreateChannelReply(r, ByName(s.channels.rows, name).value));
    } else {
      ChannelCreatedHushed(s, t, c, r, Named(rowid, name), s.users.sessions[c]);
    }
  }

  /** The requests that only look things up, and account creation. */
  lemma LookupHushed(s: State, c: nat, r: nat, q: Request)
    requires q.CreateUser? || q.GetUsers? || q.GetUser? || q.GetChats? || q.GetChannels? || q.GetChannel?
    ensures Hushed(s, Handle(s, c, r, q))
  {
    hide ReadUsers, ReadUserByName, ReadChannelById, ReadPage, ReadStore, ByName, OnlineOf, Hushed;
    forall t: State, p | t.wire == s.wire && t.users.sessions == s.users.sessions ensures Hushed(s, Sent(t, c, p)) {
      AnswerHushed(s, t, c, p);
    }
    hide Sent;
  }

  lemma WriteHushed(s: State, rows: seq<Message>, c: nat, content: string)
    requires Inv(s, rows)
    ensures Hushed(s, HandleWrite(s, c, content))
  {
    WriteIs(s, rows, c, content);
    var t := WithUserCache(s, SessionUser(s.users, c).cache);
    assert t.wire == s.wire && t.users.sessions == s.users.sessions;
    AnswerHushed(s, s, c, ErrorNote("Not authorized."));
    AnswerHushed(s, t, c, ErrorNote("No channel joined."));
    hide Inv, HandleWrite, Sent, SessionUser, WithUserCache, Hushed, CreateMessage;
    if c in s.users.sessions && c in s.channels.joined {
      var ch, u := s.channels.joined[c], s.users.sessions[c];
      var v := Stored(t, ch, u, content);
      Unlogged(s, v);
      BroadcastHushed(s, v, Connections(t.channels.joined, ch), ReceiveChat(u, ch, content));
    }
  }

  /** A new session is announced. */
  lemma LoginAnnounced(s: State, rows: seq<Message>, c: nat, r: nat, name: string, password: string)
    requires Inv(s, rows) && Known(s, c) && Announced(s)
    ensures Announced(HandleAuthenticate(s, c, r, name, password))
  {
    AuthenticateIs(s, rows, c, r, name, password);
    hide Inv, HandleAuthenticate, MatchCredentials;
    var m := MatchCredentials(s.users, name, password);
    if c !in s.users.sessions && m.Some? && m.value.id !in s.users.sessions.Values {
      AuthenticatedAnnounced(s, c, r, m.value);
    } else {
      forall p ensures Hushed(s, Sent(s, c, p)) { AnswerHushed(s, s, c, p); }
      hide Authenticated, Sent;
    }
  }

  lemma AuthenticatedAnnounced(s: State, c: nat, r: nat, u: Named)
    requires Announced(s) && c !in s.users.sessions
    ensures Announced(Authenticated(s, c, r, u))
  {
    var sessions := s.users.sessions;
    var e := Send(c, AuthenticateReply(r, u), c in s.wire.live);
    OnlineGrows(s.wire.log, e);
    OnlineGrows(s.wire.log + [e], Cast(s.wire.live * s.wire.live, UserLogin(u.id)));
    hide OnlineOf;
    assert sessions[c := u.id].Values == sessions.Values + {u.id} by {
      forall x | x in sessions.Values ensures x in sessions[c := u.id].Values {
        var d :| d in sessions && sessions[d] == x;
        assert sessions[c := u.id][d] == x;
      }
      assert sessions[c := u.id][c] == u.id;
    }
  }

  /** With one session per user, taking a session away takes its user away. */
  lemma ValuesWithout(sessions: map<nat, nat>, c: nat)
    requires c in sessions
    requires forall a, b | a in sessions && b in sessions && a != b :: sessions[a] != sessions[b]
    ensures (sessions - {c}).Values == sessions.Values - {sessions[c]}
  {
    forall x | x in sessions.Values && x != sessions[c] ensures x in (sessions - {c}).Values {
      var d :| d in sessions && sessions[d] == x;
      assert (sessions - {c})[d] == x;
    }
  }

  /** The end of a session is announced. */
  lemma LogoutAnnounced(s: State, rows: seq<Message>, c: nat)
    requires Inv(s, rows) && Announced(s)
    ensures Announced(RemoveSession(s, c))
  {
    RemoveSessionIs(s, rows, c);
    var t := WithUserCache(s, SessionUser(s.users, c).cache);
    assert t.wire == s.wire && t.users.sessions == s.users.sessions;
    if c in s.users.sessions {
      ValuesWithout(s.users.sessions, c);
      OnlineGrows(s.wire.log, Cast(s.wire.live * s.wire.live, UserLogout(s.users.sessions[c])));
    }
    hide Inv, RemoveSession, SessionUser, OnlineOf, UsersOk, ChannelsOk, PresenceOk, TablesOk, HistoryOk, Directory.CacheOk;
  }

  lemma HandleLogoutAnnounced(s: State, rows: seq<Message>, c: nat, r: nat)
    requires Inv(s, rows) && Announced(s)
    ensures Announced(HandleLogout(s, c, r))
  {
    LogoutAnnounced(s, rows, c);
    var t := RemoveSession(s, c);
    var v := t.(channels := t.channels.(joined := t.channels.joined - {c}));
    AnswerHushed(s, s, c, ErrorReply(r, "Not authorized."));
    AnswerHushed(v, v, c, LogoutReply(r));
    hide Inv, RemoveSession, Sent, OnlineOf;
  }

  lemma ConnectionsHushed(s: State, e: Event)
    requires Server.Enabled(s, e) && (e.Connect? || e.Close? || e.Shutdown? || e.Persist?)
    ensures Hushed(s, Server.Step(s, e))
  {
    OnlineGrows(s.wire.log, Opened(s.wire.next));
    if e.Close? { OnlineGrows(s.wire.log, Gone(e.c)); }
    if e.Shutdown? { AnswerHushed(s, s, e.c, ErrorNote("Not authorized.")); }
    hide OnlineOf, Sent, History.Step;
  }

  lemma AnnouncedStep(s: State, rows: seq<Message>, e: Event)
    requires Inv(s, rows) && Server.Enabled(s, e) && Announced(s)
    ensures Announced(Server.Step(s, e))
  {
    hide Inv, Known, ById, HandleAuthenticate, HandleJoin, HandleCreateChannel, HandleWrite, HandleLogout, RemoveSession, OnlineOf,
      HandleCreateUser, HandleGetUsers, HandleGetUser, HandleGetChats, HandleGetChannels, HandleGetChannel, HandleShutdown,
      History.Step, History.Enabled;
    match e
    case Drop(c) => LogoutAnnounced(s, rows, c);
    case Write(c, content) => WriteHushed(s, rows, c, content);
    case Ask(c, r, q) => AnnouncedHandle(s, rows, c, r, q);
    case _ => ConnectionsHushed(s, e);
  }

  lemma AnnouncedHandle(s: State, rows: seq<Message>, c: nat, r: nat, q: Request)
    requires Inv(s, rows) && Known(s, c) && FreshIds(s, q) && Announced(s)
    ensures Announced(Handle(s, c, r, q))
  {
    hide Inv, Known, ById, HandleAuthenticate, HandleJoin, HandleCreateChannel, HandleLogout, OnlineOf,
      HandleCreateUser, HandleGetUsers, HandleGetUser, HandleGetChats, HandleGetChannels, HandleGetChannel;
    match q
    case Authenticate(name, password) => LoginAnnounced(s, rows, c, r, name, password);
    case Join(ch) => JoinHushed(s, rows, c, r, ch);
    case CreateChannel(name, rowid) => CreateChannelHushed(s, rows, c, r, name, rowid);
    case Logout => HandleLogoutAnnounced(s, rows, c, r);
    case _ => LookupHushed(s, c, r, q);
  }

  lemma {:induction false} AnnouncedRun(s: State, rows: seq<Message>, events: seq<Event>)
    requires Inv(s, rows) && Server.Runs(s, events) && Announced(s)
    ensures Announced(Server.Exec(s, events))
    decreases |events|
  {
    hide Inv, Announced, Server.Step, Server.Enabled;
    if events != [] {
      AnnouncedStep(s, rows, events[0]);
      ServerInvariant.StepKeeps(s, rows, events[0]);
      AnnouncedRun(Server.Step(s, events[0]), rows, events[1..]);
    }
  }

  /** In every run the users that the login and logout broadcasts leave online are
      exactly those that have a session. */
  lemma OnlineIsAnnounced(d: Data, events: seq<Event>)
    requires ValidData(d) && Server.Runs(Initial(d), events)
    ensures var s := Server.Exec(Initial(d), events); OnlineOf(s.wire.log) == s.users.sessions.Values
  {
    InitialOk(d);
    assert Announced(Initial(d));
    hide Initial, Inv, Server.Runs, Server.Exec;
    AnnouncedRun(Initial(d), d.messages, events);
  }

  // ------------------------------------------------------------------- accounts

  /** No account is lost or changed. */
  ghost predicate Endures(u: Users, v: Users) {
    && u.rows <= v.rows
    && forall x | x in u.rows :: x.id in u.passwords && x.id in v.passwords && v.passwords[x.id] == u.passwords[x.id]
  }

  predicate SameAccounts(s: State, t: State) {
    t.users.rows == s.users.rows && t.users.passwords == s.users.passwords
  }

  lemma RequestLeavesAccounts(s: State, c: nat, r: nat, q: Request)
    requires !q.CreateUser?
    ensures SameAccounts(s, Handle(s, c, r, q))
  {
    hide SessionUser, ReadUsers, ReadUserByName, ReadChannelById, ReadChannelByName, AssignedChannel, EmplaceChannel, EmplacedChannel,
      ReadPage, ReadStore, MatchCredentials, AssignSession, Connections, ById, ByName;
  }

  /** Every step but the creation of an account leaves the accounts alone. */
  lemma StepLeavesAccounts(s: State, e: Event)
    requires Server.Enabled(s, e) && !(e.Ask? && e.q.CreateUser?)
    ensures SameAccounts(s, Server.Step(s, e))
  {
    if e.Ask? {
      RequestLeavesAccounts(s, e.c, e.request, e.q);
      hide Handle;
    } else {
      hide Handle, SessionUser, AssignedChannel, CreateMessage, Connections, History.Step, History.Enabled;
    }
  }

  lemma CreationEndures(s: State, rows: seq<Message>, c: nat, r: nat, q: Request)
    requires Inv(s, rows) && FreshIds(s, q) && q.CreateUser?
    ensures Endures(s.users, Handle(s, c, r, q).users)
  {
    LookupMisses(s.users.rows, q.rowid, q.name);
    hide ById, ByName, ChannelsOk, PresenceOk, TablesOk, HistoryOk, Directory.CacheOk;
  }

  lemma EnduresStep(s: State, rows: seq<Message>, e: Event)
    requires Inv(s, rows) && Server.Enabled(s, e)
    ensures Endures(s.users, Server.Step(s, e).users)
  {
    if e.Ask? && e.q.CreateUser? {
      hide Inv, Handle, ById;
      CreationEndures(s, rows, e.c, e.request, e.q);
    } else {
      StepLeavesAccounts(s, e);
      hide Server.Step, ChannelsOk, PresenceOk, TablesOk, HistoryOk, Directory.CacheOk;
    }
  }

  lemma {:induction false} AccountsEndure(s: State, rows: seq<Message>, events: seq<Event>)
    requires Inv(s, rows) && Server.Runs(s, events)
    ensures Endures(s.users, Server.Exec(s, events).users)
    decreases |events|
  {
    hide Server.Step, Server.Enabled, ChannelsOk, PresenceOk, TablesOk, HistoryOk, Directory.CacheOk;
    if events != [] {
      EnduresStep(s, rows, events[0]);
      ServerInvariant.StepKeeps(s, rows, events[0]);
      AccountsEndure(Server.Step(s, events[0]), rows, events[1..]);
    }
  }

  /** What creating an account under a free name comes down to. */
  lemma CreatedAccount(s: State, rows: seq<Message>, c: nat, r: nat, name: string, password: string, rowid: nat)
    requires Inv(s, rows) && ById(s.users.rows, rowid) == None
    requires Answer(s, c, r, CreateUser(name, password, rowid)).CreateUserReply?
    ensures var u := HandleCreateUser(s, c, r, name, password, rowid).users;
      && Named(rowid, name) in u.rows && rowid in u.passwords && u.passwords[rowid] == password
  {
    if ByName(s.users.cache, name).Some? { CachedNames(s.users.cache, s.users.rows, name); }
    hide Inv, ById, ByName;
  }

  lemma CredentialsExact(u: Users, x: Named, password: string)
    requires UsersOk(u) && x in u.rows
    ensures MatchCredentials(u, x.name, password) == if u.passwords[x.id] == password then Some(x) else None
  {
    LookupExact(u.rows, x);
    hide ByName, ById, Directory.CacheOk;
  }

  /** Round trip over runs: once an account has been created, then whatever
      happens afterwards, authenticating under its name succeeds exactly with its
      password, from a connection without a session, while its user has none. */
  lemma CreatedAccountLogsIn(s: State, rows: seq<Message>, c: nat, r: nat, name: string, password: string, rowid: nat,
                             events: seq<Event>, d: nat, q: nat, attempt: string)
    requires Inv(s, rows) && Server.Enabled(s, Ask(c, r, CreateUser(name, password, rowid)))
    requires Answer(s, c, r, CreateUser(name, password, rowid)).CreateUserReply?
    requires Server.Runs(HandleCreateUser(s, c, r, name, password, rowid), events)
    ensures var z := Server.Exec(HandleCreateUser(s, c, r, name, password, rowid), events);
      Answer(z, d, q, Authenticate(name, attempt)) == AuthenticateReply(q, Named(rowid, name))
      <==> attempt == password && d !in z.users.sessions && rowid !in z.users.sessions.Values
  {
    var x := Named(rowid, name);
    var t := HandleCreateUser(s, c, r, name, password, rowid);
    CreateUserKeeps(s, rows, c, r, name, password, rowid);
    CreatedAccount(s, rows, c, r, name, password, rowid);
    hide HandleCreateUser, Server.Runs, Server.Exec, Server.Enabled, ById;
    var z := Server.Exec(t, events);
    AccountsEndure(t, rows, events);
    ServerInvariant.RunKeeps(t, rows, events);
    assert x in z.users.rows && z.users.passwords[rowid] == password;
    CredentialsExact(z.users, x, attempt);
    hide Inv, MatchCredentials, Endures, UsersOk;
  }

  /** A session that ends sets both sides free: the connection may authenticate
      again and the user may log in from elsewhere. */
  lemma EndedSessionIsFree(s: State, rows: seq<Message>, c: nat)
    requires Inv(s, rows) && c in s.users.sessions
    ensures var t := RemoveSession(s, c);
      c !in t.users.sessions && s.users.sessions[c] !in t.users.sessions.Values
  {
    RemoveSessionIs(s, rows, c);
    ValuesWithout(s.users.sessions, c);
    hide Inv, RemoveSession, SessionUser, UsersOk, ChannelsOk, PresenceOk, TablesOk, HistoryOk, Directory.CacheOk;
  }
}
