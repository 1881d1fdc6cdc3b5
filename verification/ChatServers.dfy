/** The stores, the connection table and the server systems, field by field: each
    handler does exactly what its step of the protocol says. */
module ChatServers {
  import opened Sequences
  import opened Table
  import opened Directory
  import opened History
  import opened Server
  import Messages = ChatStores

  function Members(s: seq<nat>): set<nat> {
    set c | c in s
  }

  /** The connection table and what has gone out over it. */
  class TcpSystem {
    var next: nat
    var live: set<nat>
    var closed: set<nat>
    var log: seq<Entry>

    constructor ()
      ensures View() == Wire(1, {}, {}, [])
    {
      next, live, closed, log := 1, {}, {}, [];
    }

    function View(): Wire
      reads this
    {
      Wire(next, live, closed, log)
    }

    method CreateConnection() returns (c: nat)
      modifies this
      ensures c == old(next)
      ensures View() == Wire(old(next) + 1, old(live) + {c}, old(closed), old(log) + [Opened(c)])
    {
      c := next;
      next := next + 1;
      live := live + {c};
      log := log + [Opened(c)];
    }

    method RemoveConnection(c: nat)
      requires c in live
      modifies this
      ensures View() == Wire(old(next), old(live) - {c}, old(closed) + {c}, old(log) + [Gone(c)])
    {
      live, closed := live - {c}, closed + {c};
      log := log + [Gone(c)];
    }

    method Send(c: nat, p: Payload)
      modifies this`log
      ensures View() == old(View()).(log := old(log) + [Entry.Send(c, p, c in live)])
    {
      var found := c in live;
      log := log + [Entry.Send(c, p, found)];
    }

    /** The live ones of the listed connections, in the order of the list. */
    method GetConnections(range: seq<nat>) returns (buffer: seq<nat>)
      ensures Members(buffer) == Members(range) * live
      ensures |buffer| <= |range|
    {
      buffer := [];
      for i := 0 to |range|
        invariant |buffer| <= i
        invariant forall c :: c in buffer <==> c in range[..i] && c in live
      {
        if range[i] in live { buffer := buffer + [range[i]]; }
      }
      assert range[..|range|] == range;
    }

    method Broadcast(range: seq<nat>, p: Payload)
      modifies this`log
      ensures View() == old(View()).(log := old(log) + [Cast(Members(range) * live, p)])
    {
      var buffer := GetConnections(range);
      log := log + [Cast(Members(buffer), p)];
    }

    method BroadcastAll(p: Payload)
      modifies this`log
      ensures View() == old(View()).(log := old(log) + [Cast(live * live, p)])
    {
      assert live * live == live;
      log := log + [Cast(live, p)];
    }
  }

  /** The users' table, their cache with its two unique keys, and the sessions. */
  class UserStore {
    var rows: seq<Named>
    var passwords: map<nat, string>
    var cache: seq<Named>
    var sessions: map<nat, nat>

    constructor (rows: seq<Named>, passwords: map<nat, string>)
      ensures View() == Users(rows, passwords, [], map[])
    {
      this.rows, this.passwords, cache, sessions := rows, passwords, [], map[];
    }

    function View(): Users
      reads this
    {
      Users(rows, passwords, cache, sessions)
    }

    method Prewarm()
      requires cache == []
      modifies this`cache
      ensures cache == EmplaceUsers(rows)
    {
      for i := 0 to |rows|
        invariant cache == EmplaceUsers(rows[..i])
      {
        assert rows[..i + 1][..i] == rows[..i];
        var _ := CacheUser(rows[i]);
      }
      assert rows[..|rows|] == rows;
    }

    method CacheUser(x: Named) returns (kept: Named)
      modifies this`cache
      ensures cache == EmplaceUser(old(cache), x) && kept == EmplacedUser(old(cache), x)
    {
      var byId, byName := ById(cache, x.id), ByName(cache, x.name);
      kept := x;
      if byId.Some? {
        kept := byId.value;
      } else if byName.Some? {
        kept := byName.value;
      } else {
        cache := cache + [x];
      }
    }

    method AssignSession(c: nat, u: nat)
      modifies this`sessions
      ensures sessions == Server.AssignSession(old(sessions), c, u)
    {
      if c !in sessions && u !in sessions.Values { sessions := sessions[c := u]; }
    }

    method RemoveSession(c: nat)
      modifies this`sessions
      ensures sessions == old(sessions) - {c}
    {
      sessions := sessions - {c};
    }

    method GetUser(id: nat) returns (u: Option<Named>)
      modifies this`cache
      ensures Found(u, cache) == ReadUserById(old(cache), rows, id)
    {
      u := ById(cache, id);
      if u.Some? { return; }
      u := ById(rows, id);
      if u.None? { return; }
      var kept := CacheUser(u.value);
      u := Some(kept);
    }

    method GetUserByName(name: string) returns (u: Option<Named>)
      modifies this`cache
      ensures Found(u, cache) == ReadUserByName(old(cache), rows, name)
    {
      u := ByName(cache, name);
      if u.Some? { return; }
      u := ByName(rows, name);
      if u.None? { return; }
      var kept := CacheUser(u.value);
      u := Some(kept);
    }

    method GetUsers(ids: seq<nat>) returns (found: seq<Named>)
      modifies this`cache
      ensures FoundAll(found, cache) == ReadUsers(old(cache), rows, ids)
    {
      found := [];
      for i := 0 to |ids|
        invariant FoundAll(found, cache) == ReadUsers(old(cache), rows, ids[..i])
      {
        assert ids[..i + 1][..i] == ids[..i];
        var u := GetUser(ids[i]);
        if u.Some? { found := found + [u.value]; }
      }
      assert ids[..|ids|] == ids;
    }

    method GetSessionUser(c: nat) returns (u: Option<Named>)
      modifies this`cache
      ensures Found(u, cache) == SessionUser(old(View()), c)
    {
      if c !in sessions { return None; }
      u := GetUser(sessions[c]);
    }

    method CreateUser(name: string, password: string, rowid: nat) returns (u: Option<Named>)
      modifies this`rows, this`passwords
      ensures ByName(old(rows), name).Some? ==> u == None && View() == old(View())
      ensures ByName(old(rows), name).None? ==>
                u == Some(Named(rowid, name))
                && View() == old(View()).(rows := old(rows) + [Named(rowid, name)], passwords := old(passwords)[rowid := password])
    {
      var taken := ByName(rows, name);
      if taken.Some? { return None; }
      rows := rows + [Named(rowid, name)];
      passwords := passwords[rowid := password];
      u := Some(Named(rowid, name));
    }
  }

  /** The channels' table, their cache, and who has joined which. */
  class ChatChannelStore {
    var rows: seq<Named>
    var cache: seq<Named>
    var joined: map<nat, nat>

    constructor (rows: seq<Named>)
      ensures View() == Channels(rows, [], map[])
    {
      this.rows, cache, joined := rows, [], map[];
    }

    function View(): Channels
      reads this
    {
      Channels(rows, cache, joined)
    }

    method Prewarm()
      requires cache == []
      modifies this`cache
      ensures cache == EmplaceChannels(rows)
    {
      for i := 0 to |rows|
        invariant cache == EmplaceChannels(rows[..i])
      {
        assert rows[..i + 1][..i] == rows[..i];
        var _ := CacheChannel(rows[i]);
      }
      assert rows[..|rows|] == rows;
    }

    method CacheChannel(x: Named) returns (kept: Named)
      modifies this`cache
      ensures cache == EmplaceChannel(old(cache), x) && kept == EmplacedChannel(old(cache), x)
    {
      var byId := ById(cache, x.id);
      kept := x;
      if byId.Some? { kept := byId.value; } else { cache := cache + [x]; }
    }

    method UnassignConnection(c: nat)
      modifies this`joined
      ensures joined == old(joined) - {c}
    {
      joined := joined - {c};
    }

    method AssignConnection(c: nat, ch: nat)
      modifies this`joined
      ensures joined == (old(joined) - {c})[c := ch]
    {
      UnassignConnection(c);
      joined := joined[c := ch];
    }

    /** The connections of a channel, each once, in storage order. */
    method GetConnections(ch: nat) returns (range: Option<seq<nat>>)
      ensures range.None? <==> Connections(joined, ch) == {}
      ensures range.Some? ==> Members(range.value) == Connections(joined, ch)
    {
      var todo := Connections(joined, ch);
      var found: seq<nat> := [];
      while todo != {}
        invariant todo + Members(found) == Connections(joined, ch)
        decreases |todo|
      {
        var c :| c in todo;
        todo := todo - {c};
        found := found + [c];
      }
      assert found == [] ==> Members(found) == {};
      assert found != [] ==> found[0] in Members(found);
      range := if found == [] then None else Some(found);
    }

    method GetChannel(id: nat) returns (x: Option<Named>)
      modifies this`cache
      ensures Found(x, cache) == ReadChannelById(old(cache), rows, id)
    {
      x := ById(cache, id);
      if x.Some? { return; }
      x := ById(rows, id);
      if x.None? { return; }
      var kept := CacheChannel(x.value);
      x := Some(kept);
    }

    method GetChannelByName(name: string) returns (x: Option<Named>)
      modifies this`cache
      ensures Found(x, cache) == ReadChannelByName(old(cache), rows, name)
    {
      x := ByName(cache, name);
      if x.Some? { return; }
      x := ByName(rows, name);
      if x.None? { return; }
      var kept := CacheChannel(x.value);
      x := Some(kept);
    }

    method GetAssignedChannel(c: nat) returns (x: Option<Named>)
      modifies this`cache
      ensures Found(x, cache) == AssignedChannel(old(View()), c)
    {
      if c !in joined { return None; }
      x := GetChannel(joined[c]);
    }

    method CreateChannel(name: string, rowid: nat) returns (x: Option<Named>)
      modifies this`rows
      ensures ByName(old(rows), name).Some? ==> x == None && View() == old(View())
      ensures ByName(old(rows), name).None? ==>
                x == Some(Named(rowid, name)) && View() == old(View()).(rows := old(rows) + [Named(rowid, name)])
    {
      var taken := ByName(rows, name);
      if taken.Some? { return None; }
      rows := rows + [Named(rowid, name)];
      x := Some(Named(rowid, name));
    }
  }

  class ChatServer {
    const users: UserStore
    const channels: ChatChannelStore
    const tcp: TcpSystem
    const messages: Messages.ChatMessageStore
    var quitting: bool
    // where the flushing thread stands
    ghost var flush: Flush

    constructor (users: UserStore, channels: ChatChannelStore, tcp: TcpSystem, messages: Messages.ChatMessageStore)
      ensures this.users == users && this.channels == channels && this.tcp == tcp && this.messages == messages
      ensures View() == State(users.View(), channels.View(), System(messages.View(), Idle, NoRead), tcp.View(), false)
    {
      this.users, this.channels, this.tcp, this.messages, quitting := users, channels, tcp, messages, false;
      flush := Idle;
    }

    ghost function View(): State
      reads this, users, channels, tcp, messages, messages.adapter, messages.messageLogs.Values
    {
      State(users.View(), channels.View(), System(messages.View(), flush, NoRead), tcp.View(), quitting)
    }

    method HandleRpcError(c: nat, r: nat, text: string)
      modifies tcp`log
      ensures View() == Sent(old(View()), c, ErrorReply(r, text))
    {
      hide Messages.ChatMessageStore.View, Messages.ChatMessageStore.Logs;
      tcp.Send(c, ErrorReply(r, text));
    }

    method ValidateSession(r: nat, c: nat) returns (valid: bool)
      modifies tcp`log
      ensures valid <==> c in users.sessions
      ensures View() == if valid then old(View()) else Unauthorized(old(View()), c, r)
    {
      hide Messages.ChatMessageStore.View, Messages.ChatMessageStore.Logs;
      valid := c in users.sessions;
      if !valid { HandleRpcError(c, r, "Not authorized."); }
    }

    method ValidateSessionQuietly(c: nat) returns (valid: bool)
      modifies tcp`log
      ensures valid <==> c in users.sessions
      ensures View() == if valid then old(View()) else Sent(old(View()), c, ErrorNote("Not authorized."))
    {
      hide Messages.ChatMessageStore.View, Messages.ChatMessageStore.Logs;
      valid := c in users.sessions;
      if !valid { tcp.Send(c, ErrorNote("Not authorized.")); }
    }

    method ChannelBroadcast(ch: nat, p: Payload)
      modifies tcp`log
      ensures View() == Server.ChannelBroadcast(old(View()), ch, p)
    {
      hide Messages.ChatMessageStore.View, Messages.ChatMessageStore.Logs;
      var range := channels.GetConnections(ch);
      if range.None? { return; }
      tcp.Broadcast(range.value, p);
    }

    /** Also the handler of a disconnect. */
    method RemoveSession(c: nat)
      modifies users`cache, users`sessions, tcp`log
      ensures View() == Server.RemoveSession(old(View()), c)
    {
      hide Messages.ChatMessageStore.View, Messages.ChatMessageStore.Logs;
      var u := users.GetSessionUser(c);
      if u.None? { return; }
      tcp.BroadcastAll(UserLogout(u.value.id));
      users.RemoveSession(c);
    }

    method HandleAuthenticate(c: nat, r: nat, name: string, password: string)
      modifies users`sessions, tcp`log
      ensures View() == Server.HandleAuthenticate(old(View()), c, r, name, password)
    {
      hide Messages.ChatMessageStore.View, Messages.ChatMessageStore.Logs;
      if c in users.sessions {
        HandleRpcError(c, r, "Already logged in.");
        return;
      }
      var u := MatchCredentials(users.View(), name, password);
      if u.None? {
        HandleRpcError(c, r, "Wrong username or password");
        return;
      }
      if u.value.id in users.sessions.Values {
        HandleRpcError(c, r, name + " is already logged in.");
        return;
      }
      users.AssignSession(c, u.value.id);
      tcp.Send(c, AuthenticateReply(r, u.value));
      tcp.BroadcastAll(UserLogin(u.value.id));
    }

    method HandleCreateUser(c: nat, r: nat, name: string, password: string, rowid: nat)
      modifies users`rows, users`passwords, tcp`log
      ensures View() == Server.HandleCreateUser(old(View()), c, r, name, password, rowid)
    {
      hide Messages.ChatMessageStore.View, Messages.ChatMessageStore.Logs;
      var known := ByName(users.cache, name);
      if known.Some? {
        HandleRpcError(c, r, "User already exists.");
        return;
      }
      var u := users.CreateUser(name, password, rowid);
      if u.None? {
        HandleRpcError(c, r, "User already exists.");
        return;
      }
      tcp.Send(c, CreateUserReply(r, u.value));
    }

    method HandleGetUsers(c: nat, r: nat, ids: seq<nat>)
      modifies users`cache, tcp`log
      ensures View() == Server.HandleGetUsers(old(View()), c, r, ids)
    {
      hide Messages.ChatMessageStore.View, Messages.ChatMessageStore.Logs;
      var valid := ValidateSession(r, c);
      if !valid { return; }
      var found := users.GetUsers(ids);
      tcp.Send(c, UsersReply(r, found));
    }

    method HandleGetUser(c: nat, r: nat, name: string)
      modifies users`cache, tcp`log
      ensures View() == Server.HandleGetUser(old(View()), c, r, name)
    {
      hide Messages.ChatMessageStore.View, Messages.ChatMessageStore.Logs;
      var valid := ValidateSession(r, c);
      if !valid { return; }
      var u := users.GetUserByName(name);
      if u.None? {
        HandleRpcError(c, r, "User with name " + name + " not found");
        return;
      }
      tcp.Send(c, UserReply(r, u.value));
    }

    /** Leave the channel joined before, if any, and join. */
    method Move(c: nat, r: nat, u: nat, ch: nat)
      modifies channels`cache, channels`joined, tcp`log
      ensures View() == Moved(old(View()), c, r, u, ch)
    {
      hide Server.AssignedChannel, Server.ChannelBroadcast, Messages.ChatMessageStore.View, Messages.ChatMessageStore.Logs;
      var previous := channels.GetAssignedChannel(c);
      if previous.Some? { ChannelBroadcast(previous.value.id, ChannelLeave(previous.value.id, u)); }
      channels.AssignConnection(c, ch);
      ChannelBroadcast(ch, ChannelJoin(ch, u));
      tcp.Send(c, JoinReply(r, ch));
    }

    method HandleJoin(c: nat, r: nat, ch: nat)
      modifies users`cache, channels`cache, channels`joined, tcp`log
      ensures View() == Server.HandleJoin(old(View()), c, r, ch)
    {
      hide Messages.ChatMessageStore.View, Messages.ChatMessageStore.Logs;
      var valid := ValidateSession(r, c);
      if !valid { return; }
      var u := users.GetSessionUser(c);
      if u.None? { return; }
      var channel := channels.GetChannel(ch);
      assert View() == Looked(old(View()), c, ch);
      hide Server.Moved, SessionUser, ReadChannelById;
      if channel.None? {
        HandleRpcError(c, r, "Channel not found.");
        return;
      }
      Move(c, r, u.value.id, ch);
    }

    method HandleCreateChannel(c: nat, r: nat, name: string, rowid: nat)
      modifies users`cache, channels`rows, channels`cache, tcp`log
      ensures View() == Server.HandleCreateChannel(old(View()), c, r, name, rowid)
    {
      hide Messages.ChatMessageStore.View, Messages.ChatMessageStore.Logs;
      hide SessionUser, ReadChannelByName, EmplaceChannel, EmplacedChannel, ByName;
      var valid := ValidateSession(r, c);
      if !valid { return; }
      var u := users.GetSessionUser(c);
      if u.None? { return; }
      var channel := channels.CreateChannel(name, rowid);
      if channel.None? {
        var cached := channels.GetChannelByName(name);
        if cached.None? {
          HandleRpcError(c, r, "Unable to create channel.");
          return;
        }
        tcp.Send(c, CreateChannelReply(r, cached.value));
        return;
      }
      var kept := channels.CacheChannel(channel.value);
      tcp.Send(c, CreateChannelReply(r, kept));
      tcp.BroadcastAll(ChannelCreate(kept, u.value.id));
    }

    method HandleGetChats(c: nat, r: nat, ch: nat, limit: nat)
      requires messages.Valid()
      modifies messages`messageCache, messages`pendingMessages, messages`messageLogs, messages.messageLogs.Values, tcp`log
      ensures messages.Valid() && View() == Server.HandleGetChats(old(View()), c, r, ch, limit)
    {
      hide ReadPage, ReadStore, Messages.ChatMessageStore.View, Messages.ChatMessageStore.Logs, Messages.ChatMessageStore.Valid;
      var valid := ValidateSession(r, c);
      if !valid { return; }
      var page := messages.GetMessagesBefore(ch, MAX_ID, limit);
      tcp.Send(c, ChatsReply(r, ch, page));
    }

    method HandleGetChannels(c: nat, r: nat)
      modifies tcp`log
      ensures View() == Server.HandleGetChannels(old(View()), c, r)
    {
      hide Messages.ChatMessageStore.View, Messages.ChatMessageStore.Logs;
      var valid := ValidateSession(r, c);
      if !valid { return; }
      tcp.Send(c, ChannelsReply(r, (set x | x in channels.cache)));
    }

    method HandleGetChannel(c: nat, r: nat, ch: nat)
      modifies channels`cache, tcp`log
      ensures View() == Server.HandleGetChannel(old(View()), c, r, ch)
    {
      hide Messages.ChatMessageStore.View, Messages.ChatMessageStore.Logs;
      var valid := ValidateSession(r, c);
      if !valid { return; }
      var channel := channels.GetChannel(ch);
      if channel.None? {
        HandleRpcError(c, r, "Channel not found.");
        return;
      }
      tcp.Send(c, ChannelReply(r, channel.value));
    }

    method HandleLogout(c: nat, r: nat)
      modifies users`cache, users`sessions, channels`joined, tcp`log
      ensures View() == Server.HandleLogout(old(View()), c, r)
    {
      hide Messages.ChatMessageStore.View, Messages.ChatMessageStore.Logs;
      var valid := ValidateSession(r, c);
      if !valid { return; }
      RemoveSession(c);
      hide Server.RemoveSession;
      channels.UnassignConnection(c);
      tcp.Send(c, LogoutReply(r));
    }

    /** Store the message, then tell the channel. */
    method Say(ch: nat, u: nat, content: string)
      requires messages.Valid()
      modifies tcp`log
      modifies messages`nextId, messages`messageCache, messages`pendingMessages, messages`messageLogs, messages.messageLogs.Values
      ensures messages.Valid()
      ensures View() == Server.ChannelBroadcast(Stored(old(View()), ch, u, content), ch, ReceiveChat(u, ch, content))
    {
      hide Server.ChannelBroadcast, CreateMessage, Messages.ChatMessageStore.View, Messages.ChatMessageStore.Logs, Messages.ChatMessageStore.Valid;
      messages.CreateMessage(ch, u, content);
      ChannelBroadcast(ch, ReceiveChat(u, ch, content));
    }

    method HandleWrite(c: nat, content: string)
      requires messages.Valid()
      modifies users`cache, channels`cache, tcp`log
      modifies messages`nextId, messages`messageCache, messages`pendingMessages, messages`messageLogs, messages.messageLogs.Values
      ensures messages.Valid() && View() == Server.HandleWrite(old(View()), c, content)
    {
      hide Server.ChannelBroadcast, SessionUser, Server.AssignedChannel, CreateMessage, Messages.ChatMessageStore.View, Messages.ChatMessageStore.Logs, Messages.ChatMessageStore.Valid;
      var valid := ValidateSessionQuietly(c);
      if !valid { return; }
      var u := users.GetSessionUser(c);
      if u.None? {
        tcp.Send(c, ErrorNote("User not found."));
        return;
      }
      var channel := channels.GetAssignedChannel(c);
      if channel.None? {
        tcp.Send(c, ErrorNote("No channel joined."));
        return;
      }
      hide Stored;
      Say(channel.value.id, u.value.id, content);
    }

    method HandleShutdown(c: nat)
      modifies this`quitting, tcp`log
      ensures View() == Server.HandleShutdown(old(View()), c)
    {
      hide Messages.ChatMessageStore.View, Messages.ChatMessageStore.Logs;
      var valid := ValidateSessionQuietly(c);
      if !valid { return; }
      quitting := true;
    }
  }
}
