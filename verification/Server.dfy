/** The chat server's protocol: handlers, each one atomic step, over the users and
    their sessions, the channels and who has joined them, the message history and
    the table of live connections. What goes out is kept in a log. */
module Server {
  import opened Sequences
  import opened Table
  import opened Directory
  import opened History

  // -------------------------------------------------------------- what goes out

  datatype Payload =
    | ErrorReply(request: nat, text: string)
    | ErrorNote(text: string)
    | AuthenticateReply(request: nat, item: Named)
    | JoinReply(request: nat, channel: nat)
    | ChatsReply(request: nat, channel: nat, messages: seq<Message>)
    | ChannelsReply(request: nat, channels: set<Named>)
    | ChannelReply(request: nat, item: Named)
    | CreateUserReply(request: nat, item: Named)
    | CreateChannelReply(request: nat, item: Named)
    | UsersReply(request: nat, items: seq<Named>)
    | UserReply(request: nat, item: Named)
    | LogoutReply(request: nat)
    | ReceiveChat(user: nat, channel: nat, content: string)
    | UserLogin(user: nat)
    | UserLogout(user: nat)
    | ChannelJoin(channel: nat, user: nat)
    | ChannelLeave(channel: nat, user: nat)
    | ChannelCreate(item: Named, user: nat)

  /** A message to one connection is delivered if the connection is live; a
      broadcast reaches the live ones of its addressees. */
  datatype Entry =
    | Opened(connection: nat)
    | Gone(connection: nat)
    | Send(connection: nat, payload: Payload, delivered: bool)
    | Cast(recipients: set<nat>, payload: Payload)

  // ---------------------------------------------------------------------- state

  /** The table, the passwords by user id, the cache and the sessions, from
      connection to user. */
  datatype Users = Users(rows: seq<Named>, passwords: map<nat, string>, cache: seq<Named>, sessions: map<nat, nat>)

  datatype Channels = Channels(rows: seq<Named>, cache: seq<Named>, joined: map<nat, nat>)

  datatype Wire = Wire(next: nat, live: set<nat>, closed: set<nat>, log: seq<Entry>)

  datatype State = State(users: Users, channels: Channels, history: System, wire: Wire, quitting: bool)

  datatype Request =
    | Authenticate(name: string, password: string)
    | CreateUser(name: string, password: string, rowid: nat)
    | GetUsers(ids: seq<nat>)
    | GetUser(name: string)
    | Join(channel: nat)
    | CreateChannel(name: string, rowid: nat)
    | GetChats(channel: nat, limit: nat)
    | GetChannels
    | GetChannel(channel: nat)
    | Logout

  // --------------------------------------------------------------- the tcp system

  function Sent(s: State, c: nat, p: Payload): State {
    s.(wire := s.wire.(log := s.wire.log + [Send(c, p, c in s.wire.live)]))
  }

  function Broadcast(s: State, to: set<nat>, p: Payload): State {
    s.(wire := s.wire.(log := s.wire.log + [Cast(to * s.wire.live, p)]))
  }

  function BroadcastAll(s: State, p: Payload): State {
    Broadcast(s, s.wire.live, p)
  }

  // ------------------------------------------------------------------- the stores

  /** The bimap refuses a pair if either side is in use. */
  function AssignSession(sessions: map<nat, nat>, c: nat, u: nat): map<nat, nat> {
    if c in sessions || u in sessions.Values then sessions else sessions[c := u]
  }

  function SessionUser(users: Users, c: nat): Found {
    if c !in users.sessions then Found(None, users.cache)
    else ReadUserById(users.cache, users.rows, users.sessions[c])
  }

  function WithUserCache(s: State, cache: seq<Named>): State {
    s.(users := s.users.(cache := cache))
  }

  function WithChannelCache(s: State, cache: seq<Named>): State {
    s.(channels := s.channels.(cache := cache))
  }

  /** The connections that have joined a channel, live or not. */
  function Connections(joined: map<nat, nat>, ch: nat): set<nat> {
    set c | c in joined && joined[c] == ch
  }

  function AssignedChannel(channels: Channels, c: nat): Found {
    if c !in channels.joined then Found(None, channels.cache)
    else ReadChannelById(channels.cache, channels.rows, channels.joined[c])
  }

  function ChannelBroadcast(s: State, ch: nat, p: Payload): State {
    var to := Connections(s.channels.joined, ch);
    if to == {} then s else Broadcast(s, to, p)
  }

  function MatchCredentials(users: Users, name: string, password: string): Option<Named> {
    var u := ByName(users.rows, name);
    if u.Some? && u.value.id in users.passwords && users.passwords[u.value.id] == password then u else None
  }

  // --------------------------------------------------------------------- handlers

  function Unauthorized(s: State, c: nat, r: nat): State {
    Sent(s, c, ErrorReply(r, "Not authorized."))
  }

  function RemoveSession(s: State, c: nat): State {
    var f := SessionUser(s.users, c);
    var t := WithUserCache(s, f.cache);
    if f.item.None? then t
    else
      var u := BroadcastAll(t, UserLogout(f.item.value.id));
      u.(users := u.users.(sessions := u.users.sessions - {c}))
  }

  function HandleAuthenticate(s: State, c: nat, r: nat, name: string, password: string): State {
    if c in s.users.sessions then Sent(s, c, ErrorReply(r, "Already logged in."))
    else
      var u := MatchCredentials(s.users, name, password);
      if u.None? then Sent(s, c, ErrorReply(r, "Wrong username or password"))
      else if u.value.id in s.users.sessions.Values then Sent(s, c, ErrorReply(r, name + " is already logged in."))
      else
        var t := s.(users := s.users.(sessions := AssignSession(s.users.sessions, c, u.value.id)));
        BroadcastAll(Sent(t, c, AuthenticateReply(r, u.value)), UserLogin(u.value.id))
  }

  function HandleCreateUser(s: State, c: nat, r: nat, name: string, password: string, rowid: nat): State {
    if ByName(s.users.cache, name).Some? || ByName(s.users.rows, name).Some? then
      Sent(s, c, ErrorReply(r, "User already exists."))
    else
      var u := Named(rowid, name);
      var t := s.(users := s.users.(rows := s.users.rows + [u], passwords := s.users.passwords[rowid := password]));
      Sent(t, c, CreateUserReply(r, u))
  }

  function HandleGetUsers(s: State, c: nat, r: nat, ids: seq<nat>): State {
    if c !in s.users.sessions then Unauthorized(s, c, r)
    else
      var f := ReadUsers(s.users.cache, s.users.rows, ids);
      Sent(WithUserCache(s, f.cache), c, UsersReply(r, f.items))
  }

  function HandleGetUser(s: State, c: nat, r: nat, name: string): State {
    if c !in s.users.sessions then Unauthorized(s, c, r)
    else
      var f := ReadUserByName(s.users.cache, s.users.rows, name);
      var t := WithUserCache(s, f.cache);
      if f.item.None? then Sent(t, c, ErrorReply(r, "User with name " + name + " not found"))
      else Sent(t, c, UserReply(r, f.item.value))
  }

  /** The state after the session's user and the channel have been looked up. */
  function Looked(s: State, c: nat, ch: nat): State {
    var t := WithUserCache(s, SessionUser(s.users, c).cache);
    WithChannelCache(t, ReadChannelById(t.channels.cache, t.channels.rows, ch).cache)
  }

  /** Leaving the channel joined before, if any, then joining. */
  function Moved(s: State, c: nat, r: nat, u: nat, ch: nat): State {
    var f := AssignedChannel(s.channels, c);
    var t := WithChannelCache(s, f.cache);
    var left := if f.item.None? then t else ChannelBroadcast(t, f.item.value.id, ChannelLeave(f.item.value.id, u));
    var entered := left.(channels := left.channels.(joined := (left.channels.joined - {c})[c := ch]));
    Sent(ChannelBroadcast(entered, ch, ChannelJoin(ch, u)), c, JoinReply(r, ch))
  }

  function HandleJoin(s: State, c: nat, r: nat, ch: nat): State {
    if c !in s.users.sessions then Unauthorized(s, c, r)
    else
      var f := SessionUser(s.users, c);
      if f.item.None? then WithUserCache(s, f.cache)
      else
        var t := Looked(s, c, ch);
        if ReadChannelById(s.channels.cache, s.channels.rows, ch).item.None? then
          Sent(t, c, ErrorReply(r, "Channel not found."))
        else Moved(t, c, r, f.item.value.id, ch)
  }

  function HandleCreateChannel(s: State, c: nat, r: nat, name: string, rowid: nat): State {
    if c !in s.users.sessions then Unauthorized(s, c, r)
    else
      var f := SessionUser(s.users, c);
      var t := WithUserCache(s, f.cache);
      if f.item.None? then t
      else if ByName(t.channels.rows, name).Some? then
        var g := ReadChannelByName(t.channels.cache, t.channels.rows, name);
        var v := WithChannelCache(t, g.cache);
        if g.item.None? then Sent(v, c, ErrorReply(r, "Unable to create channel."))
        else Sent(v, c, CreateChannelReply(r, g.item.value))
      else
        var x := Named(rowid, name);
        var y := EmplacedChannel(t.channels.cache, x);
        var v := t.(channels := t.channels.(rows := t.channels.rows + [x], cache := EmplaceChannel(t.channels.cache, x)));
        BroadcastAll(Sent(v, c, CreateChannelReply(r, y)), ChannelCreate(y, f.item.value.id))
  }

  function HandleGetChats(s: State, c: nat, r: nat, ch: nat, limit: nat): State {
    if c !in s.users.sessions then Unauthorized(s, c, r)
    else
      var page := ReadPage(s.history.store, ch, MAX_ID, limit);
      var t := s.(history := s.history.(store := ReadStore(s.history.store, ch, MAX_ID, limit)));
      Sent(t, c, ChatsReply(r, ch, page))
  }

  function HandleGetChannels(s: State, c: nat, r: nat): State {
    if c !in s.users.sessions then Unauthorized(s, c, r)
    else Sent(s, c, ChannelsReply(r, set x | x in s.channels.cache))
  }

  function HandleGetChannel(s: State, c: nat, r: nat, ch: nat): State {
    if c !in s.users.sessions then Unauthorized(s, c, r)
    else
      var f := ReadChannelById(s.channels.cache, s.channels.rows, ch);
      var t := WithChannelCache(s, f.cache);
      if f.item.None? then Sent(t, c, ErrorReply(r, "Channel not found."))
      else Sent(t, c, ChannelReply(r, f.item.value))
  }

  function HandleLogout(s: State, c: nat, r: nat): State {
    if c !in s.users.sessions then Unauthorized(s, c, r)
    else
      var t := RemoveSession(s, c);
      Sent(t.(channels := t.channels.(joined := t.channels.joined - {c})), c, LogoutReply(r))
  }

  function Handle(s: State, c: nat, r: nat, q: Request): State {
    match q
    case Authenticate(name, password) => HandleAuthenticate(s, c, r, name, password)
    case CreateUser(name, password, rowid) => HandleCreateUser(s, c, r, name, password, rowid)
    case GetUsers(ids) => HandleGetUsers(s, c, r, ids)
    case GetUser(name) => HandleGetUser(s, c, r, name)
    case Join(ch) => HandleJoin(s, c, r, ch)
    case CreateChannel(name, rowid) => HandleCreateChannel(s, c, r, name, rowid)
    case GetChats(ch, limit) => HandleGetChats(s, c, r, ch, limit)
    case GetChannels => HandleGetChannels(s, c, r)
    case GetChannel(ch) => HandleGetChannel(s, c, r, ch)
    case Logout => HandleLogout(s, c, r)
  }

  function Stored(s: State, ch: nat, u: nat, content: string): State {
    s.(history := s.history.(store := CreateMessage(s.history.store, ch, u, content)))
  }

  function HandleWrite(s: State, c: nat, content: string): State {
    if c !in s.users.sessions then Sent(s, c, ErrorNote("Not authorized."))
    else
      var f := SessionUser(s.users, c);
      var t := WithUserCache(s, f.cache);
      if f.item.None? then Sent(t, c, ErrorNote("User not found."))
      else
        var g := AssignedChannel(t.channels, c);
        var v := WithChannelCache(t, g.cache);
        if g.item.None? then Sent(v, c, ErrorNote("No channel joined."))
        else
          var ch, u := g.item.value.id, f.item.value.id;
          ChannelBroadcast(Stored(v, ch, u, content), ch, ReceiveChat(u, ch, content))
  }

  function HandleShutdown(s: State, c: nat): State {
    if c !in s.users.sessions then Sent(s, c, ErrorNote("Not authorized.")) else s.(quitting := true)
  }

  // ------------------------------------------------------------------------ steps

  /** `Drop` is the disconnect handler of a closed connection; it may run at any
      time after the connection has left the table, and more than once. */
  datatype Event =
    | Connect
    | Close(c: nat)
    | Drop(c: nat)
    | Ask(c: nat, request: nat, q: Request)
    | Write(c: nat, content: string)
    | Shutdown(c: nat)
    | Persist(step: Action)

  predicate Known(s: State, c: nat) {
    c in s.wire.live || c in s.wire.closed
  }

  /** The database hands out row ids that are not in use. */
  predicate FreshIds(s: State, q: Request) {
    && (q.CreateUser? ==> ById(s.users.rows, q.rowid) == None)
    && (q.CreateChannel? ==> ById(s.channels.rows, q.rowid) == None)
  }

  predicate Enabled(s: State, e: Event) {
    match e
    case Connect => true
    case Close(c) => c in s.wire.live
    case Drop(c) => c in s.wire.closed
    case Ask(c, _, q) => Known(s, c) && FreshIds(s, q)
    case Write(c, _) => Known(s, c) && s.history.store.nextId < MAX_ID
    case Shutdown(c) => Known(s, c)
    case Persist(a) => (a.Swap? || a.Commit? || a.Publish?) && History.Enabled(s.history, a)
  }

  function Step(s: State, e: Event): State
    requires Enabled(s, e)
  {
    match e
    case Connect =>
      s.(wire := Wire(s.wire.next + 1, s.wire.live + {s.wire.next}, s.wire.closed, s.wire.log + [Opened(s.wire.next)]))
    case Close(c) =>
      s.(wire := s.wire.(live := s.wire.live - {c}, closed := s.wire.closed + {c}, log := s.wire.log + [Gone(c)]))
    case Drop(c) => RemoveSession(s, c)
    case Ask(c, r, q) => Handle(s, c, r, q)
    case Write(c, content) => HandleWrite(s, c, content)
    case Shutdown(c) => HandleShutdown(s, c)
    case Persist(a) => s.(history := History.Step(s.history, a))
  }

  predicate Runs(s: State, events: seq<Event>)
    decreases |events|
  {
    events == [] || (Enabled(s, events[0]) && Runs(Step(s, events[0]), events[1..]))
  }

  function Exec(s: State, events: seq<Event>): State
    requires Runs(s, events)
    decreases |events|
  {
    if events == [] then s else Exec(Step(s, events[0]), events[1..])
  }

  // -------------------------------------------------------- what the log amounts to

  function LiveOf(log: seq<Entry>): set<nat> {
    if log == [] then {}
    else
      var before := LiveOf(log[..|log| - 1]);
      match log[|log| - 1]
      case Opened(c) => before + {c}
      case Gone(c) => before - {c}
      case _ => before
  }

  /** The channel a connection's latest successful join names, unless it has
      logged out since. */
  function MemberOf(log: seq<Entry>, c: nat): Option<nat> {
    if log == [] then None
    else
      var last := log[|log| - 1];
      if last.Send? && last.connection == c && last.payload.JoinReply? then Some(last.payload.channel)
      else if last.Send? && last.connection == c && last.payload.LogoutReply? then None
      else MemberOf(log[..|log| - 1], c)
  }

  function LiveMembers(log: seq<Entry>, ch: nat): set<nat> {
    set c | c in LiveOf(log) && MemberOf(log, c) == Some(ch)
  }

  datatype Said = Said(user: nat, content: string)

  /** What has been broadcast on a channel. */
  function Transcript(log: seq<Entry>, ch: nat): seq<Said> {
    if log == [] then []
    else
      var last := log[|log| - 1];
      Transcript(log[..|log| - 1], ch) +
      if last.Cast? && last.payload.ReceiveChat? && last.payload.channel == ch then
        [Said(last.payload.user, last.payload.content)]
      else []
  }

  function SaidIn(ms: seq<Message>): seq<Said> {
    if ms == [] then []
    else SaidIn(ms[..|ms| - 1]) + [Said(ms[|ms| - 1].userId, ms[|ms| - 1].content)]
  }
}
