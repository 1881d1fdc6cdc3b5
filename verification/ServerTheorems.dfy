/** What holds of every run of the chat server. */
module ServerTheorems {
  import opened Sequences
  import opened Table
  import opened Directory
  import opened History
  import opened Server
  import opened ServerInvariant
  import HI = HistoryInvariant
  import HT = HistoryTheorems

  // ---------------------------------------------------------------------- start

  /** What the database holds when the server starts. */
  datatype Data = Data(users: seq<Named>, passwords: map<nat, string>, channels: seq<Named>, messages: seq<Message>)

  function IdsOf(rows: seq<Named>): seq<nat> {
    seq(|rows|, i requires 0 <= i < |rows| => rows[i].id)
  }

  predicate ValidData(d: Data) {
    && Unique(d.users) && Unique(d.channels)
    && (forall x | x in d.users :: x.id in d.passwords)
    && ValidDatabase(d.messages, IdsOf(d.channels))
  }

  /** Both caches and the history are prewarmed; nobody is connected. */
  function Initial(d: Data): State {
    State(Users(d.users, d.passwords, EmplaceUsers(d.users), map[]),
          Channels(d.channels, EmplaceChannels(d.channels), map[]),
          HT.Start(d.messages, IdsOf(d.channels)),
          Wire(1, {}, {}, []),
          false)
  }

  lemma InitialUsers(d: Data)
    requires ValidData(d)
    ensures UsersOk(Initial(d).users)
  {
    PrewarmedCaches(d.users);
    hide Unique, ValidDatabase, EmplaceUsers, EmplaceChannels, HT.Start;
  }

  lemma InitialChannels(d: Data)
    requires ValidData(d)
    ensures ChannelsOk(Initial(d).channels)
  {
    PrewarmedCaches(d.channels);
    hide Unique, ValidDatabase, EmplaceUsers, EmplaceChannels, HT.Start;
  }

  lemma InitialTables(d: Data)
    ensures var s := Initial(d);
      PresenceOk(s.users.sessions, s.channels.joined, s.wire) && TablesOk(s.channels.joined, s.wire)
  {
  }

  lemma InitialHistory(d: Data)
    requires ValidData(d)
    ensures HistoryOk(Initial(d).history, [], d.messages)
  {
    HT.PrewarmEstablishes(d.messages, IdsOf(d.channels));
    NothingSaid(d.messages);
    assert Initial(d).history.reader.NoRead?;
    hide HT.Start, HI.Inv, Written, Channel, SaidIn, Transcript, ValidDatabase, Unique, EmplaceUsers, EmplaceChannels, IdsOf;
  }

  lemma NothingSaid(rows: seq<Message>)
    ensures forall ch :: SaidIn(Channel(rows, ch)) == SaidIn(Channel(rows, ch)) + Transcript([], ch)
  {
    hide SaidIn, Channel;
  }

  lemma InitialOk(d: Data)
    requires ValidData(d)
    ensures Inv(Initial(d), d.messages)
  {
    InitialUsers(d);
    InitialChannels(d);
    InitialTables(d);
    InitialHistory(d);
    hide UsersOk, ChannelsOk, PresenceOk, TablesOk, HistoryOk, ValidData;
  }

  lemma ReachedOk(d: Data, events: seq<Event>)
    requires ValidData(d) && Server.Runs(Initial(d), events)
    ensures Inv(Server.Exec(Initial(d), events), d.messages)
  {
    InitialOk(d);
    hide Initial, Inv, Server.Exec, Server.Runs;
    ServerInvariant.RunKeeps(Initial(d), d.messages, events);
  }

  // ------------------------------------------------------------------- sessions

  /** In every run: sessions join connections and users one to one, every
      session's user exists and is found through the cache, every channel joined
      is found, and a connection that has joined a channel and is still open has
      a session. */
  lemma SessionsAreSafe(d: Data, events: seq<Event>)
    requires ValidData(d) && Server.Runs(Initial(d), events)
    ensures var s := Server.Exec(Initial(d), events);
      && (forall a, b | a in s.users.sessions && b in s.users.sessions && a != b :: s.users.sessions[a] != s.users.sessions[b])
      && (forall c | c in s.users.sessions ::
            SessionUser(s.users, c).item.Some? && SessionUser(s.users, c).item.value.id == s.users.sessions[c])
      && (forall c | c in s.channels.joined :: AssignedChannel(s.channels, c).item.Some?)
      && (forall c | c in s.wire.live && c in s.channels.joined :: c in s.users.sessions)
  {
    ReachedOk(d, events);
    var s := Server.Exec(Initial(d), events);
    hide Initial, Server.Exec, Server.Runs, SessionUser, AssignedChannel;
    forall c ensures SessionUser(s.users, c).item.Some? <==> c in s.users.sessions
             ensures c in s.users.sessions ==> SessionUser(s.users, c).item.value.id == s.users.sessions[c]
             ensures AssignedChannel(s.channels, c).item.Some? <==> c in s.channels.joined {
      SessionUserExact(s.users, c);
      AssignedChannelExact(s.channels, c);
    }
    hide TablesOk, HistoryOk;
  }

  /** Whenever authentication is answered with success the bimap has taken the
      pair: the insert is never silently refused. */
  lemma SessionIsAssigned(s: State, rows: seq<Message>, c: nat, r: nat, name: string, password: string)
    requires Inv(s, rows) && Known(s, c)
    requires Answer(s, c, r, Authenticate(name, password)).AuthenticateReply?
    ensures var u := Answer(s, c, r, Authenticate(name, password)).item;
      && u in s.users.rows && u.name == name
      && HandleAuthenticate(s, c, r, name, password).users.sessions == s.users.sessions[c := u.id]
  {
    CredentialsKnown(s.users, name, password);
    hide Inv, MatchCredentials, Known, UsersOk;
  }

  // -------------------------------------------------------------------- replies

  // The answers to requests by the database tables, the sessions and everything
  // written so far alone: no cache, no window.

  function AnswerAuthenticate(u: Users, c: nat, r: nat, name: string, password: string): Payload {
    if c in u.sessions then ErrorReply(r, "Already logged in.")
    else
      var m := MatchCredentials(u, name, password);
      if m.None? then ErrorReply(r, "Wrong username or password")
      else if m.value.id in u.sessions.Values then ErrorReply(r, name + " is already logged in.")
      else AuthenticateReply(r, m.value)
  }

  function AnswerCreateUser(u: Users, r: nat, name: string, rowid: nat): Payload {
    if ByName(u.rows, name).Some? then ErrorReply(r, "User already exists.") else CreateUserReply(r, Named(rowid, name))
  }

  function AnswerGetUser(u: Users, r: nat, name: string): Payload {
    match ByName(u.rows, name)
    case None => ErrorReply(r, "User with name " + name + " not found")
    case Some(x) => UserReply(r, x)
  }

  function AnswerJoin(channels: Channels, r: nat, ch: nat): Payload {
    if ById(channels.rows, ch).Some? then JoinReply(r, ch) else ErrorReply(r, "Channel not found.")
  }

  function AnswerCreateChannel(channels: Channels, r: nat, name: string, rowid: nat): Payload {
    match ByName(channels.rows, name)
    case None => CreateChannelReply(r, Named(rowid, name))
    case Some(x) => CreateChannelReply(r, x)
  }

  function AnswerGetChannel(channels: Channels, r: nat, ch: nat): Payload {
    match ById(channels.rows, ch)
    case None => ErrorReply(r, "Channel not found.")
    case Some(x) => ChannelReply(r, x)
  }

  /** All but the first two requests need a session. */
  function Guarded(s: State, c: nat, r: nat, p: Payload): Payload {
    if c in s.users.sessions then p else ErrorReply(r, "Not authorized.")
  }

  function Answer(s: State, c: nat, r: nat, q: Request): Payload {
    match q
    case Authenticate(name, password) => AnswerAuthenticate(s.users, c, r, name, password)
    case CreateUser(name, _, rowid) => AnswerCreateUser(s.users, r, name, rowid)
    case GetUsers(ids) => Guarded(s, c, r, UsersReply(r, RowsOf(s.users.rows, ids)))
    case GetUser(name) => Guarded(s, c, r, AnswerGetUser(s.users, r, name))
    case Join(ch) => Guarded(s, c, r, AnswerJoin(s.channels, r, ch))
    case CreateChannel(name, rowid) => Guarded(s, c, r, AnswerCreateChannel(s.channels, r, name, rowid))
    case GetChats(ch, limit) => Guarded(s, c, r, ChatsReply(r, ch, Query(Written(s.history), ch, 0xFFFF_FFFF, limit)))
    case GetChannels => Guarded(s, c, r, ChannelsReply(r, set x | x in s.channels.rows))
    case GetChannel(ch) => Guarded(s, c, r, AnswerGetChannel(s.channels, r, ch))
    case Logout => Guarded(s, c, r, LogoutReply(r))
  }

  /** The response a request declares, or an error, with the request's id. */
  predicate Declared(q: Request, r: nat, p: Payload) {
    || (p.ErrorReply? && p.request == r)
    || (match q
        case Authenticate(_, _) => p.AuthenticateReply? && p.request == r
        case CreateUser(_, _, _) => p.CreateUserReply? && p.request == r
        case GetUsers(_) => p.UsersReply? && p.request == r
        case GetUser(_) => p.UserReply? && p.request == r
        case Join(_) => p.JoinReply? && p.request == r
        case CreateChannel(_, _) => p.CreateChannelReply? && p.request == r
        case GetChats(_, _) => p.ChatsReply? && p.request == r
        case GetChannels => p.ChannelsReply? && p.request == r
        case GetChannel(_) => p.ChannelReply? && p.request == r
        case Logout => p.LogoutReply? && p.request == r)
  }

  /** The messages sent to single connections. */
  function Sends(log: seq<Entry>): seq<Entry> {
    if log == [] then []
    else Sends(log[..|log| - 1]) + if log[|log| - 1].Send? then [log[|log| - 1]] else []
  }

  lemma SendsGrow(log: seq<Entry>, e: Entry)
    ensures Sends(log + [e]) == Sends(log) + if e.Send? then [e] else []
  {
    assert (log + [e])[..|log|] == log;
  }

  /** One message has been sent: `p`, to `c`. */
  predicate Replied(s: State, t: State, c: nat, p: Payload) {
    t.wire.live == s.wire.live && Sends(t.wire.log) == Sends(s.wire.log) + [Send(c, p, c in s.wire.live)]
  }

  predicate Silent(s: State, t: State) {
    t.wire.live == s.wire.live && Sends(t.wire.log) == Sends(s.wire.log)
  }

  lemma SentReplies(s: State, t: State, c: nat, p: Payload)
    requires Silent(s, t)
    ensures Replied(s, Sent(t, c, p), c, p)
  {
    SendsGrow(t.wire.log, Send(c, p, c in t.wire.live));
  }

  lemma BroadcastSilent(s: State, t: State, to: set<nat>, p: Payload)
    ensures Silent(s, t) ==> Silent(s, Broadcast(t, to, p))
    ensures forall c, x :: Replied(s, t, c, x) ==> Replied(s, Broadcast(t, to, p), c, x)
  {
    SendsGrow(t.wire.log, Cast(to * t.wire.live, p));
    assert Sends(t.wire.log) + [] == Sends(t.wire.log);
    hide Sends;
  }

  lemma AuthenticateReplies(s: State, rows: seq<Message>, c: nat, r: nat, name: string, password: string)
    requires Inv(s, rows) && Known(s, c)
    ensures Replied(s, HandleAuthenticate(s, c, r, name, password), c, AnswerAuthenticate(s.users, c, r, name, password))
  {
    AuthenticateIs(s, rows, c, r, name, password);
    hide Inv, Replied, HandleAuthenticate, MatchCredentials, Sent, Broadcast;
    var p := AnswerAuthenticate(s.users, c, r, name, password);
    SentReplies(s, s, c, p);
    if p.AuthenticateReply? {
      var t := s.(users := s.users.(sessions := s.users.sessions[c := p.item.id]));
      SilentlyChanged(s, t);
      SentReplies(s, t, c, p);
      BroadcastSilent(s, Sent(t, c, p), t.wire.live, UserLogin(p.item.id));
      SentLive(t, c, p);
    }
  }

  lemma SentLive(s: State, c: nat, p: Payload)
    ensures Sent(s, c, p).wire.live == s.wire.live
  {
  }

  /** Nothing is sent by a step that leaves the connections and the log alone. */
  lemma SilentlyChanged(s: State, t: State)
    requires t.wire == s.wire
    ensures Silent(s, t)
  {
  }

  lemma CachedNames(cache: seq<Named>, rows: seq<Named>, name: string)
    requires Directory.CacheOk(cache, rows) && ByName(cache, name).Some?
    ensures ByName(rows, name).Some?
  {
    LookupSound(cache, 0, name);
    LookupExact(rows, ByName(cache, name).value);
  }

  lemma CreateUserReplies(s: State, rows: seq<Message>, c: nat, r: nat, name: string, password: string, rowid: nat)
    requires Inv(s, rows)
    ensures Replied(s, HandleCreateUser(s, c, r, name, password, rowid), c, AnswerCreateUser(s.users, r, name, rowid))
  {
    if ByName(s.users.cache, name).Some? { CachedNames(s.users.cache, s.users.rows, name); }
    hide Inv, Replied, Silent, Sent, ByName;
    var p := AnswerCreateUser(s.users, r, name, rowid);
    SilentlyChanged(s, s);
    SentReplies(s, s, c, p);
    var t := s.(users := s.users.(rows := s.users.rows + [Named(rowid, name)], passwords := s.users.passwords[rowid := password]));
    SilentlyChanged(s, t);
    SentReplies(s, t, c, p);
  }

  /** A reply after a lookup that has changed at most the user cache. */
  lemma LookupReplies(s: State, cache: seq<Named>, c: nat, p: Payload)
    ensures Replied(s, Sent(s, c, p), c, p)
    ensures Replied(s, Sent(WithUserCache(s, cache), c, p), c, p)
  {
    SentReplies(s, s, c, p);
    SilentlyChanged(s, WithUserCache(s, cache));
    SentReplies(s, WithUserCache(s, cache), c, p);
  }

  lemma GetUsersReplies(s: State, rows: seq<Message>, c: nat, r: nat, ids: seq<nat>)
    requires Inv(s, rows)
    ensures Replied(s, HandleGetUsers(s, c, r, ids), c, Guarded(s, c, r, UsersReply(r, RowsOf(s.users.rows, ids))))
  {
    ReadUsersExact(s.users.cache, s.users.rows, ids);
    hide Inv, Replied, Sent, ReadUsers, WithUserCache;
    LookupReplies(s, ReadUsers(s.users.cache, s.users.rows, ids).cache, c, Guarded(s, c, r, UsersReply(r, RowsOf(s.users.rows, ids))));
  }

  lemma GetUserReplies(s: State, rows: seq<Message>, c: nat, r: nat, name: string)
    requires Inv(s, rows)
    ensures Replied(s, HandleGetUser(s, c, r, name), c, Guarded(s, c, r, AnswerGetUser(s.users, r, name)))
  {
    UserByNameExact(s.users.cache, s.users.rows, name);
    hide Inv, Replied, Sent, ReadUserByName, WithUserCache, ByName, Directory.CacheOk;
    var f := ReadUserByName(s.users.cache, s.users.rows, name);
    LookupReplies(s, f.cache, c, Guarded(s, c, r, AnswerGetUser(s.users, r, name)));
  }

  lemma EnteredReplies(s: State, t: State, c: nat, r: nat, u: nat, ch: nat)
    requires Silent(s, t)
    ensures Replied(s, Entered(t, c, r, u, ch), c, JoinReply(r, ch))
  {
    var v := t.(channels := t.channels.(joined := t.channels.joined[c := ch]));
    var to := Connections(v.channels.joined, ch);
    BroadcastSilent(s, v, to, ChannelJoin(ch, u));
    SentReplies(s, Broadcast(v, to, ChannelJoin(ch, u)), c, JoinReply(r, ch));
    hide Replied, Sent, Broadcast, Connections, Sends;
  }

  lemma LeaveSilent(s: State, t: State, ch: nat, u: nat)
    requires Silent(s, t)
    ensures Silent(s, ChannelBroadcast(t, ch, ChannelLeave(ch, u)))
  {
    BroadcastSilent(s, t, Connections(t.channels.joined, ch), ChannelLeave(ch, u));
  }

  lemma MovedReplies(s: State, t: State, rows: seq<Message>, c: nat, r: nat, u: nat, ch: nat)
    requires Inv(t, rows) && Silent(s, t)
    ensures Replied(s, Moved(t, c, r, u, ch), c, JoinReply(r, ch))
  {
    MovedIs(t, rows, c, r, u, ch);
    hide Inv, Moved, Entered, Replied, Silent, ChannelBroadcast;
    if c in t.channels.joined {
      LeaveSilent(s, t, t.channels.joined[c], u);
      EnteredReplies(s, ChannelBroadcast(t, t.channels.joined[c], ChannelLeave(t.channels.joined[c], u)), c, r, u, ch);
    } else {
      EnteredReplies(s, t, c, r, u, ch);
    }
  }

  /** What a join comes down to. */
  lemma JoinIs(s: State, rows: seq<Message>, c: nat, r: nat, ch: nat)
    requires Inv(s, rows)
    ensures var t := WithUserCache(s, SessionUser(s.users, c).cache);
      && Inv(t, rows)
      && HandleJoin(s, c, r, ch) ==
           if c !in s.users.sessions then Sent(s, c, ErrorReply(r, "Not authorized."))
           else if ById(s.channels.rows, ch).None? then Sent(t, c, ErrorReply(r, "Channel not found."))
           else Moved(t, c, r, s.users.sessions[c], ch)
  {
    LookedIs(s, rows, c, ch);
    SessionUserExact(s.users, c);
    hide Inv, Looked, Moved, Sent, SessionUser, ReadChannelById, UsersOk, ById, Directory.CacheOk, WithUserCache;
  }

  lemma JoinReplies(s: State, rows: seq<Message>, c: nat, r: nat, ch: nat)
    requires Inv(s, rows)
    ensures Replied(s, HandleJoin(s, c, r, ch), c, Guarded(s, c, r, AnswerJoin(s.channels, r, ch)))
  {
    JoinIs(s, rows, c, r, ch);
    var cache := SessionUser(s.users, c).cache;
    var t := WithUserCache(s, cache);
    SilentlyChanged(s, t);
    hide Inv, HandleJoin, Replied, Silent, Moved, Sent, SessionUser, ById, WithUserCache;
    var p := Guarded(s, c, r, AnswerJoin(s.channels, r, ch));
    LookupReplies(s, cache, c, p);
    if p.JoinReply? { MovedReplies(s, t, rows, c, r, s.users.sessions[c], ch); }
  }

  lemma ChannelCreatedReplies(s: State, t: State, c: nat, r: nat, x: Named, u: nat)
    requires Silent(s, t)
    ensures Replied(s, ChannelCreated(t, c, r, x, u), c, CreateChannelReply(r, x))
  {
    var v := t.(channels := t.channels.(rows := t.channels.rows + [x], cache := EmplaceChannel(t.channels.cache, x)));
    var p := CreateChannelReply(r, x);
    SentReplies(s, v, c, p);
    BroadcastSilent(s, Sent(v, c, p), Sent(v, c, p).wire.live, ChannelCreate(x, u));
    hide Replied, Sent, Broadcast, EmplaceChannel;
  }

  lemma CreateChannelReplies(s: State, rows: seq<Message>, c: nat, r: nat, name: string, rowid: nat)
    requires Inv(s, rows) && ById(s.channels.rows, rowid) == None
    ensures Replied(s, HandleCreateChannel(s, c, r, name, rowid), c, Guarded(s, c, r, AnswerCreateChannel(s.channels, r, name, rowid)))
  {
    CreateChannelIs(s, rows, c, r, name, rowid);
    var cache := SessionUser(s.users, c).cache;
    var t := WithUserCache(s, cache);
    SilentlyChanged(s, t);
    hide Inv, HandleCreateChannel, Replied, Silent, ChannelCreated, Sent, SessionUser, ByName, ById, WithUserCache;
    LookupReplies(s, cache, c, Guarded(s, c, r, AnswerCreateChannel(s.channels, r, name, rowid)));
    if c in s.users.sessions && ByName(s.channels.rows, name).None? {
      ChannelCreatedReplies(s, t, c, r, Named(rowid, name), s.users.sessions[c]);
    }
  }

  lemma GetChatsReplies(s: State, rows: seq<Message>, c: nat, r: nat, ch: nat, limit: nat)
    requires Inv(s, rows)
    ensures Replied(s, HandleGetChats(s, c, r, ch, limit), c,
                    Guarded(s, c, r, ChatsReply(r, ch, Query(Written(s.history), ch, 0xFFFF_FFFF, limit))))
  {
    hide HI.Inv, Replied, Silent, Sent, ReadStore, ReadPage, Query, Written, UsersOk, ChannelsOk, PresenceOk, TablesOk;
    ReadHistory(s.history, ch, limit);
    hide Inv, HistoryOk;
    var p := ChatsReply(r, ch, Query(Written(s.history), ch, 0xFFFF_FFFF, limit));
    LookupReplies(s, s.users.cache, c, ErrorReply(r, "Not authorized."));
    var t := s.(history := s.history.(store := ReadStore(s.history.store, ch, MAX_ID, limit)));
    SilentlyChanged(s, t);
    SentReplies(s, t, c, p);
  }

  lemma ListingExact(cache: seq<Named>, rows: seq<Named>)
    requires Mirrors(cache, rows)
    ensures (set x | x in cache) == (set x | x in rows)
  {
    forall x ensures x in cache <==> x in rows {
    }
  }

  lemma GetChannelsReplies(s: State, rows: seq<Message>, c: nat, r: nat)
    requires Inv(s, rows)
    ensures Replied(s, HandleGetChannels(s, c, r), c, Guarded(s, c, r, ChannelsReply(r, set x | x in s.channels.rows)))
  {
    ListingExact(s.channels.cache, s.channels.rows);
    hide Inv, Replied, Sent;
    LookupReplies(s, s.users.cache, c, Guarded(s, c, r, ChannelsReply(r, set x | x in s.channels.rows)));
  }

  lemma GetChannelReplies(s: State, rows: seq<Message>, c: nat, r: nat, ch: nat)
    requires Inv(s, rows)
    ensures Replied(s, HandleGetChannel(s, c, r, ch), c, Guarded(s, c, r, AnswerGetChannel(s.channels, r, ch)))
  {
    ChannelsExact(s.channels.cache, s.channels.rows, ch, "");
    hide Inv, Replied, Sent, ReadChannelById, ById;
    LookupReplies(s, s.users.cache, c, Guarded(s, c, r, AnswerGetChannel(s.channels, r, ch)));
  }

  lemma LeftReplies(s: State, t: State, c: nat, r: nat, u: nat)
    requires Silent(s, t)
    ensures var v := BroadcastAll(t, UserLogout(u));
      Replied(s, Sent(v.(users := v.users.(sessions := v.users.sessions - {c}),
                         channels := v.channels.(joined := v.channels.joined - {c})), c, LogoutReply(r)), c, LogoutReply(r))
  {
    BroadcastSilent(s, t, t.wire.live, UserLogout(u));
    var v := BroadcastAll(t, UserLogout(u));
    var w := v.(users := v.users.(sessions := v.users.sessions - {c}), channels := v.channels.(joined := v.channels.joined - {c}));
    assert w.wire == v.wire;
    hide Broadcast, Sends, Replied, Sent;
    SentReplies(s, w, c, LogoutReply(r));
  }

  lemma LogoutReplies(s: State, rows: seq<Message>, c: nat, r: nat)
    requires Inv(s, rows)
    ensures Replied(s, HandleLogout(s, c, r), c, Guarded(s, c, r, LogoutReply(r)))
  {
    RemoveSessionIs(s, rows, c);
    var t := WithUserCache(s, SessionUser(s.users, c).cache);
    SilentlyChanged(s, t);
    hide Inv, Replied, RemoveSession, Silent, SessionUser, WithUserCache, Sent, Broadcast, Directory.CacheOk;
    if c in s.users.sessions {
      LeftReplies(s, t, c, r, s.users.sessions[c]);
    } else {
      LookupReplies(s, s.users.cache, c, ErrorReply(r, "Not authorized."));
    }
  }

  /** In every reachable state, every request is answered by exactly one message:
      to the requester, with the request's id, of the declared response type or
      an error, and with the content the database tables and everything written so
      far give. The handlers' silent returns are never taken. */
  lemma ExactlyOneReply(s: State, rows: seq<Message>, c: nat, r: nat, q: Request)
    requires Inv(s, rows) && Known(s, c) && FreshIds(s, q)
    ensures Replied(s, Handle(s, c, r, q), c, Answer(s, c, r, q))
    ensures Declared(q, r, Answer(s, c, r, q))
  {
    DeclaredAnswer(s, c, r, q);
    hide Inv, Known, Replied, Declared, ById, Guarded, AnswerAuthenticate, AnswerCreateUser, AnswerGetUser, AnswerJoin,
      AnswerCreateChannel, AnswerGetChannel, RowsOf, Query, Written, HandleAuthenticate, HandleCreateUser, HandleGetUsers, HandleGetUser, HandleJoin,
      HandleCreateChannel, HandleGetChats, HandleGetChannels, HandleGetChannel, HandleLogout;
    match q
    case Authenticate(name, password) => AuthenticateReplies(s, rows, c, r, name, password);
    case CreateUser(name, password, rowid) => CreateUserReplies(s, rows, c, r, name, password, rowid);
    case GetUsers(ids) => GetUsersReplies(s, rows, c, r, ids);
    case GetUser(name) => GetUserReplies(s, rows, c, r, name);
    case Join(ch) => JoinReplies(s, rows, c, r, ch);
    case CreateChannel(name, rowid) => CreateChannelReplies(s, rows, c, r, name, rowid);
    case GetChats(ch, limit) => GetChatsReplies(s, rows, c, r, ch, limit);
    case GetChannels => GetChannelsReplies(s, rows, c, r);
    case GetChannel(ch) => GetChannelReplies(s, rows, c, r, ch);
    case Logout => LogoutReplies(s, rows, c, r);
  }

  lemma DeclaredAnswer(s: State, c: nat, r: nat, q: Request)
    ensures Declared(q, r, Answer(s, c, r, q))
  {
  }

  /** The same over runs. */
  lemma RequestsAreAnswered(d: Data, events: seq<Event>, c: nat, r: nat, q: Request)
    requires ValidData(d) && Server.Runs(Initial(d), events)
    requires Server.Enabled(Server.Exec(Initial(d), events), Ask(c, r, q))
    ensures var s := Server.Exec(Initial(d), events);
      var t := Server.Step(s, Ask(c, r, q));
      Sends(t.wire.log) == Sends(s.wire.log) + [Send(c, Answer(s, c, r, q), c in s.wire.live)]
      && Declared(q, r, Answer(s, c, r, q))
  {
    ReachedOk(d, events);
    var s := Server.Exec(Initial(d), events);
    hide Initial, Inv, Server.Exec, Server.Runs, Handle, Answer, Declared, Sends, Known, FreshIds;
    ExactlyOneReply(s, d.messages, c, r, q);
  }

  // ----------------------------------------------------------------- recipients

  lemma {:induction false} CastsAt(log: seq<Entry>, i: nat)
    requires CastsOk(log) && i < |log|
    ensures CastOk(log[..i], log[i])
  {
    hide CastOk;
    if i < |log| - 1 {
      CastsAt(log[..|log| - 1], i);
      assert log[..|log| - 1][..i] == log[..i];
    }
  }

  /** In every run, whatever connections come and go in between: a chat message
      went to exactly the connections that were live at that moment, whose latest
      successful join named its channel and that had not logged out since. */
  lemma RecipientsAreExact(d: Data, events: seq<Event>, i: nat)
    requires ValidData(d) && Server.Runs(Initial(d), events)
    requires var log := Server.Exec(Initial(d), events).wire.log; i < |log| && log[i].Cast? && log[i].payload.ReceiveChat?
    ensures var log := Server.Exec(Initial(d), events).wire.log;
      log[i].recipients == LiveMembers(log[..i], log[i].payload.channel)
  {
    ReachedOk(d, events);
    var s := Server.Exec(Initial(d), events);
    hide Initial, Server.Exec, Server.Runs, LiveMembers;
    CastsAt(s.wire.log, i);
  }

  /** Telling the channel a connection is in, if any, that its user leaves. */
  function Left(log: seq<Entry>, c: nat, u: nat): seq<Entry> {
    match MemberOf(log, c)
    case None => []
    case Some(prior) => [Cast(LiveMembers(log, prior), ChannelLeave(prior, u))]
  }

  /** A successful join: the previous channel's live members are told, if there
      was one, then the new channel's live members including the newcomer. */
  lemma JoinReaches(s: State, rows: seq<Message>, c: nat, r: nat, ch: nat)
    requires Inv(s, rows) && Known(s, c) && c in s.users.sessions && ById(s.channels.rows, ch).Some?
    ensures var t := HandleJoin(s, c, r, ch);
      var u := s.users.sessions[c];
      && t.wire.log == s.wire.log + Left(s.wire.log, c, u) + [Cast(LiveMembers(t.wire.log, ch), ChannelJoin(ch, u))]
           + [Send(c, JoinReply(r, ch), c in s.wire.live)]
      && MemberOf(t.wire.log, c) == Some(ch)
  {
    JoinKeeps(s, rows, c, r, ch);
    JoinIs(s, rows, c, r, ch);
    var v := WithUserCache(s, SessionUser(s.users, c).cache);
    assert v.wire == s.wire && v.channels == s.channels;
    hide HandleJoin, WithUserCache, SessionUser, Moved, UsersOk, ChannelsOk, PresenceOk, HistoryOk, ById;
    MovedReaches(v, rows, c, r, s.users.sessions[c], ch, HandleJoin(s, c, r, ch));
  }

  lemma MovedReaches(s: State, rows: seq<Message>, c: nat, r: nat, u: nat, ch: nat, t: State)
    requires Inv(s, rows) && t == Moved(s, c, r, u, ch) && Inv(t, rows)
    ensures t.wire.log == s.wire.log + Left(s.wire.log, c, u) + [Cast(LiveMembers(t.wire.log, ch), ChannelJoin(ch, u))]
                          + [Send(c, JoinReply(r, ch), c in s.wire.live)]
    ensures MemberOf(t.wire.log, c) == Some(ch)
  {
    MovedIs(s, rows, c, r, u, ch);
    MemberNow(t, rows, c);
    LeftReaches(s, rows, c, u);
    hide *;
    EnteredReaches(if c in s.channels.joined then
      ChannelBroadcast(s, s.channels.joined[c], ChannelLeave(s.channels.joined[c], u)) else s, c, r, u, ch);
  }

  lemma LeftReaches(s: State, rows: seq<Message>, c: nat, u: nat)
    requires Inv(s, rows)
    ensures var t := if c in s.channels.joined then
        ChannelBroadcast(s, s.channels.joined[c], ChannelLeave(s.channels.joined[c], u)) else s;
      t.wire.live == s.wire.live && t.wire.log == s.wire.log + Left(s.wire.log, c, u)
  {
    MemberNow(s, rows, c);
    hide Inv, MemberOf, LiveMembers, ChannelBroadcast;
    if c in s.channels.joined { LeaveReaches(s, rows, c, u); }
  }

  lemma EnteredReaches(s: State, c: nat, r: nat, u: nat, ch: nat)
    ensures var t := Entered(s, c, r, u, ch);
      && t.channels.joined == s.channels.joined[c := ch]
      && (TablesOk(t.channels.joined, t.wire) ==>
            t.wire.log == s.wire.log + [Cast(LiveMembers(t.wire.log, ch), ChannelJoin(ch, u))]
                            + [Send(c, JoinReply(r, ch), c in s.wire.live)])
  {
    var t := Entered(s, c, r, u, ch);
    if TablesOk(t.channels.joined, t.wire) { ConnectionsAreMembers(t.channels.joined, t.wire, ch); }
    hide TablesOk, LiveMembers, Connections;
  }

  lemma LeaveReaches(s: State, rows: seq<Message>, c: nat, u: nat)
    requires Inv(s, rows) && c in s.channels.joined
    ensures var prior := s.channels.joined[c];
      ChannelBroadcast(s, prior, ChannelLeave(prior, u)) ==
        s.(wire := s.wire.(log := s.wire.log + [Cast(LiveMembers(s.wire.log, prior), ChannelLeave(prior, u))]))
  {
    var prior := s.channels.joined[c];
    assert c in Connections(s.channels.joined, prior);
    ConnectionsAreMembers(s.channels.joined, s.wire, prior);
    hide Connections, LiveMembers, Inv;
  }

  lemma MemberNow(s: State, rows: seq<Message>, c: nat)
    requires Inv(s, rows)
    ensures MemberOf(s.wire.log, c) == if c in s.channels.joined then Some(s.channels.joined[c]) else None
    ensures TablesOk(s.channels.joined, s.wire)
  {
  }

  // ----------------------------------------------------------------- transcript

  /** In every run: what an unlimited history read of a channel returns is what
      the database held at the start, followed by everything that has been
      broadcast on the channel since, in the order of the broadcasts. */
  lemma TranscriptIsHistory(d: Data, events: seq<Event>, ch: nat, limit: nat)
    requires ValidData(d) && Server.Runs(Initial(d), events)
    requires |Channel(Written(Server.Exec(Initial(d), events).history), ch)| <= limit
    ensures var s := Server.Exec(Initial(d), events);
      SaidIn(ReadPage(s.history.store, ch, 0xFFFF_FFFF, limit)) == SaidIn(Channel(d.messages, ch)) + Transcript(s.wire.log, ch)
  {
    ReachedOk(d, events);
    var s := Server.Exec(Initial(d), events);
    hide Initial, Server.Exec, Server.Runs, UsersOk, ChannelsOk, PresenceOk, TablesOk, HI.Inv, ReadPage, Written, Query, SaidIn, Channel;
    ReadHistory(s.history, ch, limit);
    BelowMax(s.history, ch, limit);
    HT.InvOrdered(s.history);
    HT.WholeChannel(Written(s.history), ch, limit);
  }
}
