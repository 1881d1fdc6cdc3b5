/** What every step of the chat server keeps. */
module ServerInvariant {
  import opened Sequences
  import opened Table
  import opened Directory
  import opened History
  import opened Server
  import HI = HistoryInvariant
  import HR = HistoryRuns
  import HT = HistoryTheorems

  // ------------------------------------------------------------------ invariant

  /** Sessions join connections and users one to one, and every user exists. */
  predicate UsersOk(u: Users) {
    && Directory.CacheOk(u.cache, u.rows)
    && (forall x | x in u.rows :: x.id in u.passwords)
    && (forall c, d | c in u.sessions && d in u.sessions && c != d :: u.sessions[c] != u.sessions[d])
    && (forall c | c in u.sessions :: ById(u.rows, u.sessions[c]).Some?)
  }

  predicate ChannelsOk(c: Channels) {
    && Mirrors(c.cache, c.rows)
    && (forall x | x in c.joined :: ById(c.rows, c.joined[x]).Some?)
  }

  /** A connection that has joined a channel and is not closed has a session. */
  ghost predicate PresenceOk(sessions: map<nat, nat>, joined: map<nat, nat>, wire: Wire) {
    && (forall c | c in wire.live || c in wire.closed :: c < wire.next)
    && wire.live !! wire.closed
    && (forall c | c in sessions || c in joined :: c in wire.live || c in wire.closed)
    && (forall c | c in joined && c !in wire.closed :: c in sessions)
  }

  predicate IsEvent(p: Payload) {
    p.ReceiveChat? || p.UserLogin? || p.UserLogout? || p.ChannelJoin? || p.ChannelLeave? || p.ChannelCreate?
  }

  /** Only events are broadcast, and what is said on a channel, and who leaves it,
      is told to exactly its live members. */
  predicate CastOk(log: seq<Entry>, e: Entry) {
    e.Cast? ==>
      && IsEvent(e.payload)
      && (e.payload.ReceiveChat? || e.payload.ChannelLeave? ==> e.recipients == LiveMembers(log, e.payload.channel))
  }

  predicate CastsOk(log: seq<Entry>) {
    log == [] || (CastsOk(log[..|log| - 1]) && CastOk(log[..|log| - 1], log[|log| - 1]))
  }

  /** The tables say what the log says. */
  ghost predicate TablesOk(joined: map<nat, nat>, wire: Wire) {
    && LiveOf(wire.log) == wire.live
    && (forall c :: MemberOf(wire.log, c) == if c in joined then Some(joined[c]) else None)
    && CastsOk(wire.log)
  }

  /** The history is that of the prewarmed rows and what has been broadcast since. */
  ghost predicate HistoryOk(h: System, log: seq<Entry>, rows: seq<Message>) {
    && HI.Inv(h) && h.reader.NoRead?
    && (forall ch :: SaidIn(Channel(Written(h), ch)) == SaidIn(Channel(rows, ch)) + Transcript(log, ch))
  }

  ghost predicate Inv(s: State, rows: seq<Message>) {
    && UsersOk(s.users) && ChannelsOk(s.channels)
    && PresenceOk(s.users.sessions, s.channels.joined, s.wire)
    && TablesOk(s.channels.joined, s.wire)
    && HistoryOk(s.history, s.wire.log, rows)
  }

  // -------------------------------------------------------------------- the log

  lemma LogGrows(log: seq<Entry>, e: Entry)
    ensures LiveOf(log + [e]) ==
      if e.Opened? then LiveOf(log) + {e.connection} else if e.Gone? then LiveOf(log) - {e.connection} else LiveOf(log)
    ensures CastsOk(log + [e]) <==> CastsOk(log) && CastOk(log, e)
  {
    assert (log + [e])[..|log|] == log;
  }

  lemma MembersGrow(log: seq<Entry>, e: Entry, c: nat)
    ensures MemberOf(log + [e], c) ==
      if e.Send? && e.connection == c && e.payload.JoinReply? then Some(e.payload.channel)
      else if e.Send? && e.connection == c && e.payload.LogoutReply? then None
      else MemberOf(log, c)
  {
    assert (log + [e])[..|log|] == log;
  }

  lemma TranscriptGrows(log: seq<Entry>, e: Entry, ch: nat)
    ensures Transcript(log + [e], ch) == Transcript(log, ch) +
      if e.Cast? && e.payload.ReceiveChat? && e.payload.channel == ch then [Said(e.payload.user, e.payload.content)] else []
  {
    assert (log + [e])[..|log|] == log;
  }

  /** Entries that change neither membership nor transcript. */
  predicate Plain(p: Payload) {
    !p.JoinReply? && !p.LogoutReply? && !p.ReceiveChat? && !p.ChannelLeave?
  }

  /** Sending such a message, or broadcasting such an event, keeps the tables. */
  lemma PlainKeepsTables(joined: map<nat, nat>, wire: Wire, e: Entry)
    requires TablesOk(joined, wire)
    requires (e.Send? && Plain(e.payload)) || (e.Cast? && Plain(e.payload) && IsEvent(e.payload))
    ensures TablesOk(joined, wire.(log := wire.log + [e]))
  {
    LogGrows(wire.log, e);
    forall c ensures MemberOf(wire.log + [e], c) == MemberOf(wire.log, c) { MembersGrow(wire.log, e, c); }
  }

  lemma QuietKeepsHistory(h: System, log: seq<Entry>, rows: seq<Message>, e: Entry)
    requires HistoryOk(h, log, rows)
    requires e.Cast? ==> !e.payload.ReceiveChat?
    ensures HistoryOk(h, log + [e], rows)
  {
    hide HI.Inv, Channel, SaidIn;
    forall ch ensures Transcript(log + [e], ch) == Transcript(log, ch) {
      TranscriptGrows(log, e, ch);
      assert Transcript(log, ch) + [] == Transcript(log, ch);
    }
  }

  lemma PresenceKept(sessions: map<nat, nat>, joined: map<nat, nat>, wire: Wire, e: Entry)
    requires PresenceOk(sessions, joined, wire)
    ensures PresenceOk(sessions, joined, wire.(log := wire.log + [e]))
  {
  }

  lemma SentKeeps(s: State, rows: seq<Message>, c: nat, p: Payload)
    requires Inv(s, rows) && Plain(p)
    ensures Inv(Sent(s, c, p), rows)
  {
    var e := Send(c, p, c in s.wire.live);
    PlainKeepsTables(s.channels.joined, s.wire, e);
    QuietKeepsHistory(s.history, s.wire.log, rows, e);
    hide UsersOk, ChannelsOk, TablesOk, HistoryOk;
  }

  lemma BroadcastKeeps(s: State, rows: seq<Message>, to: set<nat>, p: Payload)
    requires Inv(s, rows) && Plain(p) && IsEvent(p)
    ensures Inv(Broadcast(s, to, p), rows)
  {
    var e := Cast(to * s.wire.live, p);
    PlainKeepsTables(s.channels.joined, s.wire, e);
    QuietKeepsHistory(s.history, s.wire.log, rows, e);
    hide UsersOk, ChannelsOk, TablesOk, HistoryOk;
  }

  lemma CacheKeeps(s: State, rows: seq<Message>, cache: seq<Named>)
    requires Inv(s, rows) && Directory.CacheOk(cache, s.users.rows)
    ensures Inv(WithUserCache(s, cache), rows)
  {
    hide Directory.CacheOk, ChannelsOk, TablesOk, HistoryOk, PresenceOk;
  }

  // ------------------------------------------------------- looking things up

  /** A session's user is found, whatever is cached. */
  lemma SessionUserExact(u: Users, c: nat)
    requires UsersOk(u)
    ensures var f := SessionUser(u, c);
      && f.item == (if c in u.sessions then ById(u.rows, u.sessions[c]) else None)
      && (f.item.Some? <==> c in u.sessions)
      && (f.item.Some? ==> f.item.value.id == u.sessions[c])
      && Directory.CacheOk(f.cache, u.rows)
  {
    if c in u.sessions {
      UserByIdExact(u.cache, u.rows, u.sessions[c]);
      LookupSound(u.rows, u.sessions[c], "");
    }
  }

  /** The channel a connection has joined is found, and nothing is cached. */
  lemma AssignedChannelExact(ch: Channels, c: nat)
    requires ChannelsOk(ch)
    ensures var f := AssignedChannel(ch, c);
      && f.cache == ch.cache
      && f.item == (if c in ch.joined then ById(ch.rows, ch.joined[c]) else None)
      && (f.item.Some? <==> c in ch.joined)
      && (f.item.Some? ==> f.item.value.id == ch.joined[c])
  {
    if c in ch.joined {
      ChannelsExact(ch.cache, ch.rows, ch.joined[c], "");
      LookupSound(ch.rows, ch.joined[c], "");
    }
  }

  /** The live connections of a channel are its live members. */
  lemma ConnectionsAreMembers(joined: map<nat, nat>, wire: Wire, ch: nat)
    requires TablesOk(joined, wire)
    ensures Connections(joined, ch) * wire.live == LiveMembers(wire.log, ch)
  {
  }

  // ------------------------------------------------------------------- sessions

  /** Once a user has been found without a session and the connection has none,
      the bimap takes the pair. */
  lemma SessionInserted(s: State, rows: seq<Message>, c: nat, u: Named)
    requires Inv(s, rows) && Known(s, c) && c !in s.users.sessions
    requires ById(s.users.rows, u.id).Some? && u.id !in s.users.sessions.Values
    ensures AssignSession(s.users.sessions, c, u.id) == s.users.sessions[c := u.id]
    ensures Inv(s.(users := s.users.(sessions := s.users.sessions[c := u.id])), rows)
  {
    hide Directory.CacheOk, ChannelsOk, TablesOk, HistoryOk;
    forall d | d in s.users.sessions ensures s.users.sessions[d] != u.id {
      assert s.users.sessions[d] in s.users.sessions.Values;
    }
  }

  lemma SessionRemoved(s: State, rows: seq<Message>, c: nat)
    requires Inv(s, rows) && (c in s.channels.joined ==> c in s.wire.closed)
    ensures Inv(s.(users := s.users.(sessions := s.users.sessions - {c})), rows)
  {
    hide Directory.CacheOk, ChannelsOk, TablesOk, HistoryOk;
  }

  lemma RemoveSessionIs(s: State, rows: seq<Message>, c: nat)
    requires Inv(s, rows)
    ensures var f := SessionUser(s.users, c);
      var t := WithUserCache(s, f.cache);
      && Directory.CacheOk(f.cache, s.users.rows)
      && (c !in s.users.sessions ==> RemoveSession(s, c) == t)
      && (c in s.users.sessions ==>
            var u := BroadcastAll(t, UserLogout(s.users.sessions[c]));
            RemoveSession(s, c) == u.(users := u.users.(sessions := u.users.sessions - {c})))
  {
    SessionUserExact(s.users, c);
    hide SessionUser, UsersOk, ChannelsOk, PresenceOk, TablesOk, HistoryOk, Directory.CacheOk;
  }

  /** The disconnect handler, whenever it runs. */
  lemma DropKeeps(s: State, rows: seq<Message>, c: nat)
    requires Inv(s, rows) && c in s.wire.closed
    ensures Inv(RemoveSession(s, c), rows)
  {
    hide Inv;
    RemoveSessionIs(s, rows, c);
    hide RemoveSession;
    var t := WithUserCache(s, SessionUser(s.users, c).cache);
    CacheKeeps(s, rows, SessionUser(s.users, c).cache);
    if c in s.users.sessions {
      var p := UserLogout(s.users.sessions[c]);
      BroadcastKeeps(t, rows, t.wire.live, p);
      SessionRemoved(BroadcastAll(t, p), rows, c);
    }
  }

  // ------------------------------------------------------------- user handlers

  lemma CredentialsKnown(u: Users, name: string, password: string)
    requires UsersOk(u)
    ensures var m := MatchCredentials(u, name, password);
      m.Some? ==> m.value in u.rows && m.value.name == name && ById(u.rows, m.value.id) == m
  {
    LookupSound(u.rows, 0, name);
    if MatchCredentials(u, name, password).Some? {
      LookupExact(u.rows, MatchCredentials(u, name, password).value);
    }
  }

  function Authenticated(s: State, c: nat, r: nat, u: Named): State {
    var t := s.(users := s.users.(sessions := s.users.sessions[c := u.id]));
    BroadcastAll(Sent(t, c, AuthenticateReply(r, u)), UserLogin(u.id))
  }

  lemma AuthenticatedKeeps(s: State, rows: seq<Message>, c: nat, r: nat, u: Named)
    requires Inv(s, rows) && Known(s, c) && c !in s.users.sessions
    requires ById(s.users.rows, u.id).Some? && u.id !in s.users.sessions.Values
    ensures Inv(Authenticated(s, c, r, u), rows)
  {
    hide Inv, Sent, Broadcast, Known, ById;
    SessionInserted(s, rows, c, u);
    var t := s.(users := s.users.(sessions := s.users.sessions[c := u.id]));
    SentKeeps(t, rows, c, AuthenticateReply(r, u));
    var v := Sent(t, c, AuthenticateReply(r, u));
    BroadcastKeeps(v, rows, v.wire.live, UserLogin(u.id));
  }

  lemma AuthenticateIs(s: State, rows: seq<Message>, c: nat, r: nat, name: string, password: string)
    requires Inv(s, rows) && Known(s, c)
    ensures var u := MatchCredentials(s.users, name, password);
      HandleAuthenticate(s, c, r, name, password) ==
        if c in s.users.sessions then Sent(s, c, ErrorReply(r, "Already logged in."))
        else if u.None? then Sent(s, c, ErrorReply(r, "Wrong username or password"))
        else if u.value.id in s.users.sessions.Values then Sent(s, c, ErrorReply(r, name + " is already logged in."))
        else Authenticated(s, c, r, u.value)
  {
    hide Inv, Sent, Broadcast, MatchCredentials;
  }

  lemma AuthenticateKeeps(s: State, rows: seq<Message>, c: nat, r: nat, name: string, password: string)
    requires Inv(s, rows) && Known(s, c)
    ensures Inv(HandleAuthenticate(s, c, r, name, password), rows)
  {
    CredentialsKnown(s.users, name, password);
    AuthenticateIs(s, rows, c, r, name, password);
    hide Inv, MatchCredentials, HandleAuthenticate, Authenticated, Sent, Broadcast, Known, ById, UsersOk;
    var u := MatchCredentials(s.users, name, password);
    if c in s.users.sessions {
      SentKeeps(s, rows, c, ErrorReply(r, "Already logged in."));
    } else if u.None? {
      SentKeeps(s, rows, c, ErrorReply(r, "Wrong username or password"));
    } else if u.value.id in s.users.sessions.Values {
      SentKeeps(s, rows, c, ErrorReply(r, name + " is already logged in."));
    } else {
      AuthenticatedKeeps(s, rows, c, r, u.value);
    }
  }

  lemma RowAdded(s: State, rows: seq<Message>, u: Named, password: string)
    requires Inv(s, rows) && ById(s.users.rows, u.id) == None && ByName(s.users.rows, u.name) == None
    ensures Inv(s.(users := s.users.(rows := s.users.rows + [u], passwords := s.users.passwords[u.id := password])), rows)
  {
    UniqueAppend(s.users.rows, u);
    hide ChannelsOk, PresenceOk, TablesOk, HistoryOk;
    forall c | c in s.users.sessions ensures ById(s.users.rows + [u], s.users.sessions[c]).Some? {
      assert (s.users.rows + [u])[..|s.users.rows|] == s.users.rows;
    }
    hide ById, Unique;
  }

  lemma CreateUserKeeps(s: State, rows: seq<Message>, c: nat, r: nat, name: string, password: string, rowid: nat)
    requires Inv(s, rows) && ById(s.users.rows, rowid) == None
    ensures Inv(HandleCreateUser(s, c, r, name, password, rowid), rows)
  {
    hide Inv, Sent, ById, ByName;
    if ByName(s.users.cache, name).Some? || ByName(s.users.rows, name).Some? {
      SentKeeps(s, rows, c, ErrorReply(r, "User already exists."));
    } else {
      var u := Named(rowid, name);
      RowAdded(s, rows, u, password);
      var t := s.(users := s.users.(rows := s.users.rows + [u], passwords := s.users.passwords[rowid := password]));
      SentKeeps(t, rows, c, CreateUserReply(r, u));
    }
  }

  lemma GetUsersKeeps(s: State, rows: seq<Message>, c: nat, r: nat, ids: seq<nat>)
    requires Inv(s, rows)
    ensures Inv(HandleGetUsers(s, c, r, ids), rows)
  {
    ReadUsersExact(s.users.cache, s.users.rows, ids);
    hide Inv, Sent, ReadUsers;
    if c !in s.users.sessions {
      SentKeeps(s, rows, c, ErrorReply(r, "Not authorized."));
    } else {
      var f := ReadUsers(s.users.cache, s.users.rows, ids);
      CacheKeeps(s, rows, f.cache);
      SentKeeps(WithUserCache(s, f.cache), rows, c, UsersReply(r, f.items));
    }
  }

  lemma GetUserKeeps(s: State, rows: seq<Message>, c: nat, r: nat, name: string)
    requires Inv(s, rows)
    ensures Inv(HandleGetUser(s, c, r, name), rows)
  {
    UserByNameExact(s.users.cache, s.users.rows, name);
    hide Inv, Sent, ReadUserByName;
    if c !in s.users.sessions {
      SentKeeps(s, rows, c, ErrorReply(r, "Not authorized."));
    } else {
      var f := ReadUserByName(s.users.cache, s.users.rows, name);
      var t := WithUserCache(s, f.cache);
      CacheKeeps(s, rows, f.cache);
      if f.item.None? {
        SentKeeps(t, rows, c, ErrorReply(r, "User with name " + name + " not found"));
      } else {
        SentKeeps(t, rows, c, UserReply(r, f.item.value));
      }
    }
  }

  // --------------------------------------------------------------- connections

  lemma ConnectKeeps(s: State, rows: seq<Message>)
    requires Inv(s, rows)
    ensures Inv(Server.Step(s, Connect), rows)
  {
    var e := Opened(s.wire.next);
    LogGrows(s.wire.log, e);
    forall c ensures MemberOf(s.wire.log + [e], c) == MemberOf(s.wire.log, c) { MembersGrow(s.wire.log, e, c); }
    QuietKeepsHistory(s.history, s.wire.log, rows, e);
    hide UsersOk, ChannelsOk, HistoryOk, LiveOf, MemberOf, CastsOk;
  }

  lemma CloseKeeps(s: State, rows: seq<Message>, c: nat)
    requires Inv(s, rows) && c in s.wire.live
    ensures Inv(Server.Step(s, Close(c)), rows)
  {
    var e := Gone(c);
    LogGrows(s.wire.log, e);
    forall d ensures MemberOf(s.wire.log + [e], d) == MemberOf(s.wire.log, d) { MembersGrow(s.wire.log, e, d); }
    QuietKeepsHistory(s.history, s.wire.log, rows, e);
    hide UsersOk, ChannelsOk, HistoryOk, LiveOf, MemberOf, CastsOk;
  }

  // -------------------------------------------------------------------- channels

  /** Looking up the user and a channel before a join. */
  lemma LookedIs(s: State, rows: seq<Message>, c: nat, ch: nat)
    requires Inv(s, rows)
    ensures Looked(s, c, ch) == WithUserCache(s, SessionUser(s.users, c).cache)
    ensures ReadChannelById(s.channels.cache, s.channels.rows, ch).item == ById(s.channels.rows, ch)
    ensures Inv(Looked(s, c, ch), rows)
  {
    ChannelsExact(s.channels.cache, s.channels.rows, ch, "");
    SessionUserExact(s.users, c);
    CacheKeeps(s, rows, SessionUser(s.users, c).cache);
    hide Inv, SessionUser, ReadChannelById;
  }

  /** Telling a channel that somebody leaves it. */
  lemma LeaveKeeps(s: State, rows: seq<Message>, ch: nat, u: nat)
    requires Inv(s, rows)
    ensures Inv(ChannelBroadcast(s, ch, ChannelLeave(ch, u)), rows)
  {
    var e := Cast(Connections(s.channels.joined, ch) * s.wire.live, ChannelLeave(ch, u));
    ConnectionsAreMembers(s.channels.joined, s.wire, ch);
    LogGrows(s.wire.log, e);
    forall d ensures MemberOf(s.wire.log + [e], d) == MemberOf(s.wire.log, d) { MembersGrow(s.wire.log, e, d); }
    QuietKeepsHistory(s.history, s.wire.log, rows, e);
    hide UsersOk, ChannelsOk, HistoryOk, LiveOf, MemberOf, CastsOk, LiveMembers;
  }

  /** Joining: the table is changed, those in the channel are told, and the reply
      is sent. */
  function Entered(s: State, c: nat, r: nat, u: nat, ch: nat): State {
    var t := s.(channels := s.channels.(joined := s.channels.joined[c := ch]));
    Sent(Broadcast(t, Connections(t.channels.joined, ch), ChannelJoin(ch, u)), c, JoinReply(r, ch))
  }

  lemma EnteredTables(joined: map<nat, nat>, wire: Wire, c: nat, e: Entry, f: Entry)
    requires TablesOk(joined, wire)
    requires e.Cast? && e.payload.ChannelJoin? && f.Send? && f.connection == c && f.payload.JoinReply?
    ensures TablesOk(joined[c := f.payload.channel], wire.(log := wire.log + [e] + [f]))
  {
    LogGrows(wire.log, e);
    LogGrows(wire.log + [e], f);
    forall d ensures MemberOf(wire.log + [e] + [f], d) == if d == c then Some(f.payload.channel) else MemberOf(wire.log, d) {
      MembersGrow(wire.log, e, d);
      MembersGrow(wire.log + [e], f, d);
    }
    hide LiveOf, MemberOf, CastsOk;
  }

  lemma EnteredKeeps(s: State, rows: seq<Message>, c: nat, r: nat, u: nat, ch: nat)
    requires Inv(s, rows) && Known(s, c) && c in s.users.sessions && ById(s.channels.rows, ch).Some?
    ensures Inv(Entered(s, c, r, u, ch), rows)
  {
    var joined := s.channels.joined[c := ch];
    var e := Cast(Connections(joined, ch) * s.wire.live, ChannelJoin(ch, u));
    var f := Send(c, JoinReply(r, ch), c in s.wire.live);
    EnteredTables(s.channels.joined, s.wire, c, e, f);
    QuietKeepsHistory(s.history, s.wire.log, rows, e);
    QuietKeepsHistory(s.history, s.wire.log + [e], rows, f);
    hide UsersOk, TablesOk, HistoryOk, Mirrors;
  }

  /** Moving to a channel is leaving the previous one, if any, and entering. */
  lemma MovedIs(s: State, rows: seq<Message>, c: nat, r: nat, u: nat, ch: nat)
    requires Inv(s, rows)
    ensures var left := if c in s.channels.joined then
        ChannelBroadcast(s, s.channels.joined[c], ChannelLeave(s.channels.joined[c], u)) else s;
      Moved(s, c, r, u, ch) == Entered(left, c, r, u, ch)
  {
    AssignedChannelExact(s.channels, c);
    hide AssignedChannel, Inv, Sent;
    var joined := s.channels.joined;
    assert (joined - {c})[c := ch] == joined[c := ch];
    assert c in Connections(joined[c := ch], ch);
  }

  lemma MovedKeeps(s: State, rows: seq<Message>, c: nat, r: nat, u: nat, ch: nat)
    requires Inv(s, rows) && Known(s, c) && c in s.users.sessions && ById(s.channels.rows, ch).Some?
    ensures Inv(Moved(s, c, r, u, ch), rows)
  {
    hide Inv, Moved, Entered;
    MovedIs(s, rows, c, r, u, ch);
    if c in s.channels.joined {
      LeaveKeeps(s, rows, s.channels.joined[c], u);
      EnteredKeeps(ChannelBroadcast(s, s.channels.joined[c], ChannelLeave(s.channels.joined[c], u)), rows, c, r, u, ch);
    } else {
      EnteredKeeps(s, rows, c, r, u, ch);
    }
  }

  lemma JoinKeeps(s: State, rows: seq<Message>, c: nat, r: nat, ch: nat)
    requires Inv(s, rows) && Known(s, c)
    ensures Inv(HandleJoin(s, c, r, ch), rows)
  {
    LookedIs(s, rows, c, ch);
    SessionUserExact(s.users, c);
    hide Inv, UsersOk, Looked, SessionUser, Moved, Sent, ReadChannelById;
    var t := Looked(s, c, ch);
    if c !in s.users.sessions {
      SentKeeps(s, rows, c, ErrorReply(r, "Not authorized."));
    } else if ById(s.channels.rows, ch).None? {
      SentKeeps(t, rows, c, ErrorReply(r, "Channel not found."));
    } else {
      MovedKeeps(t, rows, c, r, SessionUser(s.users, c).item.value.id, ch);
    }
  }

  lemma ChannelAdded(s: State, rows: seq<Message>, x: Named)
    requires Inv(s, rows) && ById(s.channels.rows, x.id) == None && ByName(s.channels.rows, x.name) == None
    ensures EmplacedChannel(s.channels.cache, x) == x
    ensures Inv(s.(channels := s.channels.(rows := s.channels.rows + [x], cache := EmplaceChannel(s.channels.cache, x))), rows)
  {
    MirrorAppend(s.channels.cache, s.channels.rows, x);
    hide UsersOk, PresenceOk, TablesOk, HistoryOk, Mirrors;
    forall c | c in s.channels.joined ensures ById(s.channels.rows + [x], s.channels.joined[c]).Some? {
      assert (s.channels.rows + [x])[..|s.channels.rows|] == s.channels.rows;
    }
    hide ById, EmplaceChannel;
  }

  /** What a creation comes down to: under the invariant the channel is found in
      the table or added to it, and the last two error paths are dead. */
  lemma CreateChannelIs(s: State, rows: seq<Message>, c: nat, r: nat, name: string, rowid: nat)
    requires Inv(s, rows) && ById(s.channels.rows, rowid) == None
    ensures var t := WithUserCache(s, SessionUser(s.users, c).cache);
      HandleCreateChannel(s, c, r, name, rowid) ==
        if c !in s.users.sessions then Sent(s, c, ErrorReply(r, "Not authorized."))
        else if ByName(s.channels.rows, name).Some? then
          Sent(t, c, CreateChannelReply(r, ByName(s.channels.rows, name).value))
        else ChannelCreated(t, c, r, Named(rowid, name), s.users.sessions[c])
  {
    SessionUserExact(s.users, c);
    ChannelsExact(s.channels.cache, s.channels.rows, 0, name);
    if ByName(s.channels.rows, name).None? { MirrorAppend(s.channels.cache, s.channels.rows, Named(rowid, name)); }
    hide Inv, UsersOk, SessionUser, Sent, Broadcast, ById, ByName, ReadChannelByName, EmplaceChannel, EmplacedChannel, Mirrors;
  }

  function ChannelCreated(s: State, c: nat, r: nat, x: Named, u: nat): State {
    var v := s.(channels := s.channels.(rows := s.channels.rows + [x], cache := EmplaceChannel(s.channels.cache, x)));
    BroadcastAll(Sent(v, c, CreateChannelReply(r, x)), ChannelCreate(x, u))
  }

  lemma ChannelCreatedKeeps(s: State, rows: seq<Message>, c: nat, r: nat, x: Named, u: nat)
    requires Inv(s, rows) && ById(s.channels.rows, x.id) == None && ByName(s.channels.rows, x.name) == None
    ensures Inv(ChannelCreated(s, c, r, x, u), rows)
  {
    hide Inv, Sent, Broadcast, ById, ByName, EmplaceChannel;
    ChannelAdded(s, rows, x);
    var v := s.(channels := s.channels.(rows := s.channels.rows + [x], cache := EmplaceChannel(s.channels.cache, x)));
    SentKeeps(v, rows, c, CreateChannelReply(r, x));
    var w := Sent(v, c, CreateChannelReply(r, x));
    BroadcastKeeps(w, rows, w.wire.live, ChannelCreate(x, u));
  }

  lemma CreateChannelKeeps(s: State, rows: seq<Message>, c: nat, r: nat, name: string, rowid: nat)
    requires Inv(s, rows) && ById(s.channels.rows, rowid) == None
    ensures Inv(HandleCreateChannel(s, c, r, name, rowid), rows)
  {
    CreateChannelIs(s, rows, c, r, name, rowid);
    SessionUserExact(s.users, c);
    hide Inv, UsersOk, HandleCreateChannel, ChannelCreated, SessionUser, Sent, ById, ByName;
    if c !in s.users.sessions {
      SentKeeps(s, rows, c, ErrorReply(r, "Not authorized."));
    } else {
      var t := WithUserCache(s, SessionUser(s.users, c).cache);
      CacheKeeps(s, rows, SessionUser(s.users, c).cache);
      if ByName(s.channels.rows, name).Some? {
        SentKeeps(t, rows, c, CreateChannelReply(r, ByName(s.channels.rows, name).value));
      } else {
        ChannelCreatedKeeps(t, rows, c, r, Named(rowid, name), s.users.sessions[c]);
      }
    }
  }

  lemma GetChannelKeeps(s: State, rows: seq<Message>, c: nat, r: nat, ch: nat)
    requires Inv(s, rows)
    ensures Inv(HandleGetChannel(s, c, r, ch), rows)
  {
    ChannelsExact(s.channels.cache, s.channels.rows, ch, "");
    hide Inv, Sent, ReadChannelById;
    if c !in s.users.sessions {
      SentKeeps(s, rows, c, ErrorReply(r, "Not authorized."));
    } else if ById(s.channels.rows, ch).None? {
      SentKeeps(s, rows, c, ErrorReply(r, "Channel not found."));
    } else {
      SentKeeps(s, rows, c, ChannelReply(r, ById(s.channels.rows, ch).value));
    }
  }

  lemma GetChannelsKeeps(s: State, rows: seq<Message>, c: nat, r: nat)
    requires Inv(s, rows)
    ensures Inv(HandleGetChannels(s, c, r), rows)
  {
    hide Inv, Sent;
    SentKeeps(s, rows, c, if c in s.users.sessions then ChannelsReply(r, set x | x in s.channels.cache)
                          else ErrorReply(r, "Not authorized."));
  }

  /** Logging out: the session goes, then the channel, then the reply. */
  lemma LogoutTables(joined: map<nat, nat>, wire: Wire, c: nat, e: Entry)
    requires TablesOk(joined, wire) && e.Send? && e.connection == c && e.payload.LogoutReply?
    ensures TablesOk(joined - {c}, wire.(log := wire.log + [e]))
  {
    LogGrows(wire.log, e);
    forall d ensures MemberOf(wire.log + [e], d) == if d == c then None else MemberOf(wire.log, d) {
      MembersGrow(wire.log, e, d);
    }
    hide LiveOf, MemberOf, CastsOk;
  }

  lemma LeftUsers(u: Users, c: nat)
    requires UsersOk(u)
    ensures UsersOk(u.(sessions := u.sessions - {c}))
  {
    hide Directory.CacheOk, ById;
  }

  lemma LeftChannels(ch: Channels, c: nat)
    requires ChannelsOk(ch)
    ensures ChannelsOk(ch.(joined := ch.joined - {c}))
  {
    hide Mirrors, ById;
  }

  lemma LeftPresence(sessions: map<nat, nat>, joined: map<nat, nat>, wire: Wire, c: nat, e: Entry)
    requires PresenceOk(sessions, joined, wire)
    ensures PresenceOk(sessions - {c}, joined - {c}, wire.(log := wire.log + [e]))
  {
  }

  /** Both tables forget the connection and the reply goes out. */
  lemma LeftKeeps(s: State, rows: seq<Message>, c: nat, r: nat)
    requires Inv(s, rows)
    ensures Inv(Sent(s.(users := s.users.(sessions := s.users.sessions - {c}),
                        channels := s.channels.(joined := s.channels.joined - {c})), c, LogoutReply(r)), rows)
  {
    var e := Send(c, LogoutReply(r), c in s.wire.live);
    LeftUsers(s.users, c);
    LeftChannels(s.channels, c);
    LeftPresence(s.users.sessions, s.channels.joined, s.wire, c, e);
    LogoutTables(s.channels.joined, s.wire, c, e);
    QuietKeepsHistory(s.history, s.wire.log, rows, e);
    hide UsersOk, ChannelsOk, PresenceOk, TablesOk, HistoryOk;
  }

  lemma LogoutKeeps(s: State, rows: seq<Message>, c: nat, r: nat)
    requires Inv(s, rows)
    ensures Inv(HandleLogout(s, c, r), rows)
  {
    hide Inv;
    if c !in s.users.sessions {
      SentKeeps(s, rows, c, ErrorReply(r, "Not authorized."));
    } else {
      RemoveSessionIs(s, rows, c);
      hide RemoveSession, Sent;
      var t := WithUserCache(s, SessionUser(s.users, c).cache);
      CacheKeeps(s, rows, SessionUser(s.users, c).cache);
      BroadcastKeeps(t, rows, t.wire.live, UserLogout(s.users.sessions[c]));
      LeftKeeps(BroadcastAll(t, UserLogout(s.users.sessions[c])), rows, c, r);
    }
  }

  // --------------------------------------------------------------------- history

  lemma BelowMax(h: System, ch: nat, limit: nat)
    requires HI.Inv(h) && h.reader.NoRead?
    ensures History.Enabled(h, ReadStart(ch, MAX_ID, limit))
    ensures forall m | m in Written(h) :: m.id < MAX_ID
  {
    hide Written, HI.LogsOk, HI.CacheOk, HI.ReaderOk, HI.WatermarkOk;
    ChannelSpec(Written(h), ch);
    hide Channel;
    var c := Channel(Written(h), ch);
    forall i | 0 <= i < |c| ensures c[i].id < MAX_ID { assert c[i] in Written(h); }
  }

  /** A history read by the handler is exact and changes only what is cached. */
  lemma ReadHistory(h: System, ch: nat, limit: nat)
    requires HI.Inv(h) && h.reader.NoRead?
    ensures var t := h.(store := ReadStore(h.store, ch, MAX_ID, limit)); HI.Inv(t) && Written(t) == Written(h)
    ensures ReadPage(h.store, ch, MAX_ID, limit) == Query(Written(h), ch, MAX_ID, limit)
  {
    hide HI.Inv, Written, ReadStore, ReadPage, Query;
    BelowMax(h, ch, limit);
    HT.ReadKeeps(h, ch, MAX_ID, limit);
    HT.ReadPageIsExact(h, ch, MAX_ID, limit);
  }

  lemma CreateHistory(h: System, ch: nat, u: nat, content: string)
    requires HI.Inv(h) && h.reader.NoRead? && h.store.nextId < MAX_ID
    ensures var t := h.(store := CreateMessage(h.store, ch, u, content));
      HI.Inv(t) && Written(t) == Written(h) + [Message(h.store.nextId, ch, u, content)]
  {
    hide HI.Inv, Written, CreateMessage;
    HR.CreateKeeps(h, ch, u, content);
  }

  lemma SaidGrows(w: seq<Message>, m: Message, ch: nat)
    ensures SaidIn(Channel(w + [m], ch)) ==
            SaidIn(Channel(w, ch)) + if m.channelId == ch then [Said(m.userId, m.content)] else []
  {
    ChannelOfConcat(w, [m], ch);
    var c := Channel(w, ch);
    assert Channel([m], ch) == if m.channelId == ch then [m] else [];
    assert (c + [m])[..|c|] == c && c + [] == c;
    hide Channel;
  }

  lemma GetChatsKeeps(s: State, rows: seq<Message>, c: nat, r: nat, ch: nat, limit: nat)
    requires Inv(s, rows)
    ensures Inv(HandleGetChats(s, c, r, ch, limit), rows)
  {
    if c !in s.users.sessions {
      hide Inv;
      SentKeeps(s, rows, c, ErrorReply(r, "Not authorized."));
    } else {
      ReadHistory(s.history, ch, limit);
      var t := s.(history := s.history.(store := ReadStore(s.history.store, ch, MAX_ID, limit)));
      hide HI.Inv, Written, ReadStore, ReadPage, UsersOk, ChannelsOk, PresenceOk, TablesOk, SaidIn, Channel;
      assert HistoryOk(t.history, t.wire.log, rows);
      hide HistoryOk;
      SentKeeps(t, rows, c, ChatsReply(r, ch, ReadPage(s.history.store, ch, MAX_ID, limit)));
    }
  }

  /** One more message in the history and one more broadcast on its channel. */
  lemma SpokenHistory(h: System, log: seq<Entry>, rows: seq<Message>, ch: nat, u: nat, content: string, e: Entry)
    requires HistoryOk(h, log, rows) && h.store.nextId < MAX_ID
    requires e.Cast? && e.payload == ReceiveChat(u, ch, content)
    ensures HistoryOk(h.(store := CreateMessage(h.store, ch, u, content)), log + [e], rows)
  {
    CreateHistory(h, ch, u, content);
    var t := h.(store := CreateMessage(h.store, ch, u, content));
    hide HI.Inv, CreateMessage, Written, SaidIn, Channel, Transcript;
    forall x ensures SaidIn(Channel(Written(t), x)) == SaidIn(Channel(rows, x)) + Transcript(log + [e], x) {
      SpokenSaid(Written(h), log, rows, Message(h.store.nextId, ch, u, content), e, x);
    }
  }

  lemma SpokenSaid(w: seq<Message>, log: seq<Entry>, rows: seq<Message>, m: Message, e: Entry, x: nat)
    requires SaidIn(Channel(w, x)) == SaidIn(Channel(rows, x)) + Transcript(log, x)
    requires e.Cast? && e.payload == ReceiveChat(m.userId, m.channelId, m.content)
    ensures SaidIn(Channel(w + [m], x)) == SaidIn(Channel(rows, x)) + Transcript(log + [e], x)
  {
    hide SaidIn, Channel, Transcript;
    SaidGrows(w, m, x);
    TranscriptGrows(log, e, x);
    var more := if m.channelId == x then [Said(m.userId, m.content)] else [];
    assert SaidIn(Channel(rows, x)) + Transcript(log, x) + more == SaidIn(Channel(rows, x)) + (Transcript(log, x) + more);
  }

  function Spoken(s: State, ch: nat, u: nat, content: string): State {
    Broadcast(Stored(s, ch, u, content), Connections(s.channels.joined, ch), ReceiveChat(u, ch, content))
  }

  lemma SpokenTables(joined: map<nat, nat>, wire: Wire, ch: nat, e: Entry)
    requires TablesOk(joined, wire)
    requires e.Cast? && e.payload.ReceiveChat? && e.payload.channel == ch && e.recipients == Connections(joined, ch) * wire.live
    ensures TablesOk(joined, wire.(log := wire.log + [e]))
  {
    ConnectionsAreMembers(joined, wire, ch);
    LogGrows(wire.log, e);
    forall d ensures MemberOf(wire.log + [e], d) == MemberOf(wire.log, d) { MembersGrow(wire.log, e, d); }
    hide LiveOf, MemberOf, CastsOk, LiveMembers;
  }

  lemma SpokenKeeps(s: State, rows: seq<Message>, ch: nat, u: nat, content: string)
    requires Inv(s, rows) && s.history.store.nextId < MAX_ID
    ensures Inv(Spoken(s, ch, u, content), rows)
  {
    var e := Cast(Connections(s.channels.joined, ch) * s.wire.live, ReceiveChat(u, ch, content));
    SpokenHistory(s.history, s.wire.log, rows, ch, u, content, e);
    SpokenTables(s.channels.joined, s.wire, ch, e);
    PresenceKept(s.users.sessions, s.channels.joined, s.wire, e);
    hide UsersOk, ChannelsOk, PresenceOk, TablesOk, HistoryOk, CreateMessage, Connections;
  }

  /** What a write comes down to. */
  lemma WriteIs(s: State, rows: seq<Message>, c: nat, content: string)
    requires Inv(s, rows)
    ensures var t := WithUserCache(s, SessionUser(s.users, c).cache);
      HandleWrite(s, c, content) ==
        if c !in s.users.sessions then Sent(s, c, ErrorNote("Not authorized."))
        else if c !in s.channels.joined then Sent(t, c, ErrorNote("No channel joined."))
        else Spoken(t, s.channels.joined[c], s.users.sessions[c], content)
  {
    SessionUserExact(s.users, c);
    AssignedChannelExact(s.channels, c);
    hide Inv, SessionUser, AssignedChannel, Sent, UsersOk, CreateMessage;
    assert c in s.channels.joined ==> c in Connections(s.channels.joined, s.channels.joined[c]);
  }

  lemma WriteKeeps(s: State, rows: seq<Message>, c: nat, content: string)
    requires Inv(s, rows) && s.history.store.nextId < MAX_ID
    ensures Inv(HandleWrite(s, c, content), rows)
  {
    WriteIs(s, rows, c, content);
    SessionUserExact(s.users, c);
    hide Inv, HandleWrite, Spoken, Sent, UsersOk, SessionUser;
    var t := WithUserCache(s, SessionUser(s.users, c).cache);
    if c !in s.users.sessions {
      SentKeeps(s, rows, c, ErrorNote("Not authorized."));
    } else {
      CacheKeeps(s, rows, SessionUser(s.users, c).cache);
      if c !in s.channels.joined {
        SentKeeps(t, rows, c, ErrorNote("No channel joined."));
      } else {
        SpokenKeeps(t, rows, s.channels.joined[c], s.users.sessions[c], content);
      }
    }
  }

  lemma PersistKeeps(s: State, rows: seq<Message>, a: Action)
    requires Inv(s, rows) && Server.Enabled(s, Persist(a))
    ensures Inv(Server.Step(s, Persist(a)), rows)
  {
    FlushKeeps(s.history, a);
    hide HI.Inv, Written, History.Step, History.Enabled, UsersOk, ChannelsOk, PresenceOk, TablesOk, SaidIn, Channel;
  }

  lemma FlushKeeps(h: System, a: Action)
    requires HI.Inv(h) && h.reader.NoRead? && (a.Swap? || a.Commit? || a.Publish?) && History.Enabled(h, a)
    ensures var t := History.Step(h, a); HI.Inv(t) && t.reader.NoRead? && Written(t) == Written(h)
  {
    HR.StepKeeps(h, a);
    hide HI.Inv, Written;
    assert Written(h) + [] == Written(h);
  }

  // ------------------------------------------------------------------- all steps

  lemma HandleKeeps(s: State, rows: seq<Message>, c: nat, r: nat, q: Request)
    requires Inv(s, rows) && Known(s, c) && FreshIds(s, q)
    ensures Inv(Handle(s, c, r, q), rows)
  {
    hide Inv, Known, HandleAuthenticate, HandleCreateUser, HandleGetUsers, HandleGetUser, HandleJoin, HandleCreateChannel,
      HandleGetChats, HandleGetChannels, HandleGetChannel, HandleLogout, ById;
    match q
    case Authenticate(name, password) => AuthenticateKeeps(s, rows, c, r, name, password);
    case CreateUser(name, password, rowid) => CreateUserKeeps(s, rows, c, r, name, password, rowid);
    case GetUsers(ids) => GetUsersKeeps(s, rows, c, r, ids);
    case GetUser(name) => GetUserKeeps(s, rows, c, r, name);
    case Join(ch) => JoinKeeps(s, rows, c, r, ch);
    case CreateChannel(name, rowid) => CreateChannelKeeps(s, rows, c, r, name, rowid);
    case GetChats(ch, limit) => GetChatsKeeps(s, rows, c, r, ch, limit);
    case GetChannels => GetChannelsKeeps(s, rows, c, r);
    case GetChannel(ch) => GetChannelKeeps(s, rows, c, r, ch);
    case Logout => LogoutKeeps(s, rows, c, r);
  }

  lemma ShutdownKeeps(s: State, rows: seq<Message>, c: nat)
    requires Inv(s, rows)
    ensures Inv(HandleShutdown(s, c), rows)
  {
    if c !in s.users.sessions { SentKeeps(s, rows, c, ErrorNote("Not authorized.")); }
    hide UsersOk, ChannelsOk, PresenceOk, TablesOk, HistoryOk;
  }

  lemma StepKeeps(s: State, rows: seq<Message>, e: Event)
    requires Inv(s, rows) && Server.Enabled(s, e)
    ensures Inv(Server.Step(s, e), rows)
  {
    hide Inv, Handle, HandleWrite, HandleShutdown, RemoveSession, History.Enabled, History.Step;
    match e
    case Connect => ConnectKeeps(s, rows);
    case Close(c) => CloseKeeps(s, rows, c);
    case Drop(c) => DropKeeps(s, rows, c);
    case Ask(c, r, q) => HandleKeeps(s, rows, c, r, q);
    case Write(c, content) => WriteKeeps(s, rows, c, content);
    case Shutdown(c) => ShutdownKeeps(s, rows, c);
    case Persist(a) => PersistKeeps(s, rows, a);
  }

  lemma {:induction false} RunKeeps(s: State, rows: seq<Message>, events: seq<Event>)
    requires Inv(s, rows) && Server.Runs(s, events)
    ensures Inv(Server.Exec(s, events), rows)
    decreases |events|
  {
    hide Inv, Server.Step, Server.Enabled;
    if events != [] {
      StepKeeps(s, rows, events[0]);
      RunKeeps(Server.Step(s, events[0]), rows, events[1..]);
    }
  }
}
