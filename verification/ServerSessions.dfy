/** When a connection holds a session, over every run of the chat server, and what
    a session costs that outlives its connection. */
module ServerSessions {
  import opened Sequences
  import opened Table
  import opened Directory
  import opened History
  import opened Server
  import opened ServerInvariant
  import opened ServerTheorems
  import opened ServerAccounts
  import HT = HistoryTheorems

  // ------------------------------------------------------------------- one step

  /** No handler but authentication, logout and disconnect touches the sessions. */
  lemma SessionsUntouched(s: State, rows: seq<Message>, e: Event)
    requires Inv(s, rows) && Server.Enabled(s, e) && !e.Drop?
    requires e.Ask? ==> !e.q.Authenticate? && !e.q.Logout?
    ensures Server.Step(s, e).users.sessions == s.users.sessions
  {
    hide Inv, Known, ById, HandleJoin, HandleCreateChannel, HandleWrite, OnlineOf,
      HandleCreateUser, HandleGetUsers, HandleGetUser, HandleGetChats, HandleGetChannels, HandleGetChannel, HandleShutdown,
      History.Step, History.Enabled;
    match e
    case Write(c, content) => WriteHushed(s, rows, c, content);
    case Ask(c, r, q) =>
      if q.Join? { JoinHushed(s, rows, c, r, q.channel); }
      else if q.CreateChannel? { CreateChannelHushed(s, rows, c, r, q.name, q.rowid); }
      else { LookupHushed(s, c, r, q); }
    case _ => ConnectionsHushed(s, e);
  }

  lemma SessionGone(s: State, rows: seq<Message>, c: nat)
    requires Inv(s, rows)
    ensures RemoveSession(s, c).users.sessions == s.users.sessions - {c}
  {
    RemoveSessionIs(s, rows, c);
    hide Inv, RemoveSession, SessionUser;
  }

  lemma LogoutGone(s: State, rows: seq<Message>, c: nat, r: nat)
    requires Inv(s, rows)
    ensures HandleLogout(s, c, r).users.sessions == s.users.sessions - {c}
  {
    SessionGone(s, rows, c);
    hide Inv, RemoveSession;
  }

  lemma HandleIs(s: State, c: nat, r: nat, q: Request)
    ensures q.Logout? ==> Handle(s, c, r, q) == HandleLogout(s, c, r)
    ensures q.Authenticate? ==> Handle(s, c, r, q) == HandleAuthenticate(s, c, r, q.name, q.password)
  {
  }

  /** The connection asks to authenticate with credentials that match, while it has
      no session and neither has the user. */
  predicate LogsIn(s: State, e: Event, c: nat) {
    && e.Ask? && e.c == c && e.q.Authenticate?
    && c !in s.users.sessions
    && MatchCredentials(s.users, e.q.name, e.q.password).Some?
    && MatchCredentials(s.users, e.q.name, e.q.password).value.id !in s.users.sessions.Values
  }

  /** The connection logs out or its disconnect handler runs. */
  predicate Ends(e: Event, c: nat) {
    e == Drop(c) || (e.Ask? && e.c == c && e.q.Logout?)
  }

  /** When a connection has a session after a step, and whose. */
  lemma SessionStep(s: State, rows: seq<Message>, e: Event, c: nat)
    requires Inv(s, rows) && Server.Enabled(s, e)
    ensures c in Server.Step(s, e).users.sessions <==> (c in s.users.sessions && !Ends(e, c)) || LogsIn(s, e, c)
    ensures c in s.users.sessions && !Ends(e, c) ==> Server.Step(s, e).users.sessions[c] == s.users.sessions[c]
    ensures LogsIn(s, e, c) ==>
              Server.Step(s, e).users.sessions[c] == MatchCredentials(s.users, e.q.name, e.q.password).value.id
  {
    hide Inv, Known, ById, HandleLogout, RemoveSession, Handle, History.Step, History.Enabled, MatchCredentials;
    if e.Drop? {
      SessionGone(s, rows, e.c);
    } else if e.Ask? && e.q.Logout? {
      LogoutGone(s, rows, e.c, e.request);
      HandleIs(s, e.c, e.request, e.q);
    } else if e.Ask? && e.q.Authenticate? {
      AuthenticateIs(s, rows, e.c, e.request, e.q.name, e.q.password);
      HandleIs(s, e.c, e.request, e.q);
      hide HandleAuthenticate;
    } else {
      SessionsUntouched(s, rows, e);
    }
  }

  // ------------------------------------------------------------------- over runs

  /** The state before the i-th event of a run. */
  function StateAt(s: State, events: seq<Event>, i: nat): State
    requires Server.Runs(s, events) && i <= |events|
    decreases i
  {
    if i == 0 then s else StateAt(Server.Step(s, events[0]), events[1..], i - 1)
  }

  predicate NoEnd(events: seq<Event>, c: nat) {
    forall e | e in events :: !Ends(e, c)
  }

  /** The connection logs in at the i-th event and its session does not end later. */
  predicate LoggedInAt(s: State, events: seq<Event>, i: nat, c: nat)
    requires Server.Runs(s, events)
  {
    i < |events| && LogsIn(StateAt(s, events, i), events[i], c) && NoEnd(events[i + 1..], c)
  }

  lemma LoggedInShifts(s: State, events: seq<Event>, j: nat, c: nat)
    requires Server.Runs(s, events) && events != []
    ensures LoggedInAt(Server.Step(s, events[0]), events[1..], j, c) <==> LoggedInAt(s, events, j + 1, c)
  {
    hide Server.Step, LogsIn;
    if j + 1 < |events| {
      assert events[1..][j + 1..] == events[j + 2..];
      assert events[1..][j] == events[j + 1];
    }
  }

  lemma NoEndSplits(events: seq<Event>, c: nat)
    requires events != []
    ensures NoEnd(events, c) <==> !Ends(events[0], c) && NoEnd(events[1..], c)
  {
    assert events == [events[0]] + events[1..];
  }

  lemma FirstLogin(s: State, events: seq<Event>, c: nat)
    requires Server.Runs(s, events) && events != []
    ensures LoggedInAt(s, events, 0, c) <==> LogsIn(s, events[0], c) && NoEnd(events[1..], c)
  {
    hide LogsIn, Server.Step;
  }

  lemma LoginsSplit(s: State, events: seq<Event>, c: nat)
    requires Server.Runs(s, events) && events != []
    ensures (exists i: nat :: LoggedInAt(s, events, i, c)) <==>
            LoggedInAt(s, events, 0, c) || exists j: nat :: LoggedInAt(Server.Step(s, events[0]), events[1..], j, c)
  {
    hide LoggedInAt, Server.Step, Server.Enabled;
    if i: nat :| LoggedInAt(s, events, i, c) {
      if i > 0 { LoggedInShifts(s, events, i - 1, c); }
    }
    if j: nat :| LoggedInAt(Server.Step(s, events[0]), events[1..], j, c) {
      LoggedInShifts(s, events, j, c);
      assert LoggedInAt(s, events, j + 1, c);
    }
  }

  /** Exactly when a connection holds a session after a run: it had one and the run
      does not end it, or it logs in at some event of the run and no later event
      ends the session. */
  lemma {:induction false} SessionHeldIff(s: State, rows: seq<Message>, events: seq<Event>, c: nat)
    requires Inv(s, rows) && Server.Runs(s, events)
    ensures c in Server.Exec(s, events).users.sessions <==>
            (c in s.users.sessions && NoEnd(events, c)) || exists i: nat :: LoggedInAt(s, events, i, c)
    decreases |events|
  {
    hide Inv, Server.Step, Server.Enabled, LogsIn, Ends;
    if events != [] {
      var t := Server.Step(s, events[0]);
      SessionStep(s, rows, events[0], c);
      ServerInvariant.StepKeeps(s, rows, events[0]);
      SessionHeldIff(t, rows, events[1..], c);
      LoginsSplit(s, events, c);
      FirstLogin(s, events, c);
      NoEndSplits(events, c);
    }
  }

  /** Not an invariant: that a session belongs to a connection whose disconnect has
      not been handled. In every run of the server, exactly when it fails: a
      connection holds a session although its disconnect handler has run, at event
      k, if and only if at some later event it logs in, with credentials that match,
      while it and the user are free, and neither logs out nor is dropped again. */
  lemma StaleSessionIff(d: Data, events: seq<Event>, k: nat, c: nat)
    requires ValidData(d) && Server.Runs(Initial(d), events)
    requires k < |events| && events[k] == Drop(c)
    ensures c in Server.Exec(Initial(d), events).users.sessions <==>
            exists i: nat | k < i :: LoggedInAt(Initial(d), events, i, c)
  {
    InitialOk(d);
    assert Initial(d).users.sessions == map[];
    var s := Initial(d);
    hide Initial, Inv, LogsIn;
    SessionHeldIff(s, d.messages, events, c);
    hide Server.Runs, Server.Exec, LoggedInAt;
    forall i: nat | LoggedInAt(s, events, i, c) ensures k < i {
      LoginAfterDrop(s, events, k, c, i);
    }
  }

  lemma LoginAfterDrop(s: State, events: seq<Event>, k: nat, c: nat, i: nat)
    requires Server.Runs(s, events) && k < |events| && events[k] == Drop(c) && LoggedInAt(s, events, i, c)
    ensures k < i
  {
    hide StateAt, Server.Runs;
    DropIsEnd(events, k, c, i);
  }

  lemma DropIsEnd(events: seq<Event>, k: nat, c: nat, i: nat)
    requires k < |events| && events[k] == Drop(c)
    ensures i < k ==> !NoEnd(events[i + 1..], c)
  {
    if i < k {
      assert events[i + 1..][k - i - 1] == events[k];
      assert Ends(events[k], c);
    }
  }

  /** Once a disconnect has been handled the connection stays without a session,
      in every run in which it does not ask to authenticate again. */
  lemma {:induction false} DroppedStaysOut(s: State, rows: seq<Message>, events: seq<Event>, c: nat)
    requires Inv(s, rows) && Server.Runs(s, events) && c !in s.users.sessions
    requires forall e | e in events :: !(e.Ask? && e.c == c && e.q.Authenticate?)
    ensures c !in Server.Exec(s, events).users.sessions
  {
    hide Inv, StateAt, MatchCredentials;
    SessionHeldIff(s, rows, events, c);
    forall i: nat ensures !LoggedInAt(s, events, i, c) {
      if i < |events| { assert events[i] in events; }
    }
  }

  // ------------------------------------------------------------- being locked out

  lemma {:induction false} SessionLasts(s: State, rows: seq<Message>, events: seq<Event>, c: nat)
    requires Inv(s, rows) && Server.Runs(s, events) && c in s.users.sessions && NoEnd(events, c)
    ensures var z := Server.Exec(s, events); c in z.users.sessions && z.users.sessions[c] == s.users.sessions[c]
    decreases |events|
  {
    hide Inv, Server.Step, Server.Enabled, LogsIn, Ends;
    if events != [] {
      SessionStep(s, rows, events[0], c);
      ServerInvariant.StepKeeps(s, rows, events[0]);
      NoEndSplits(events, c);
      SessionLasts(Server.Step(s, events[0]), rows, events[1..], c);
    }
  }

  /** As long as the session lasts, that is in every run in which its connection
      neither logs out nor is dropped, nobody can log in as its user, whatever the
      password. */
  lemma LockoutLasts(s: State, rows: seq<Message>, events: seq<Event>, c: nat, x: Named, d: nat, r: nat, attempt: string)
    requires Inv(s, rows) && Server.Runs(s, events) && c in s.users.sessions && NoEnd(events, c)
    requires x in s.users.rows && s.users.sessions[c] == x.id
    ensures var z := Server.Exec(s, events);
      && c in z.users.sessions && z.users.sessions[c] == x.id
      && Answer(z, d, r, Authenticate(x.name, attempt)).ErrorReply?
  {
    SessionLasts(s, rows, events, c);
    AccountsEndure(s, rows, events);
    ServerInvariant.RunKeeps(s, rows, events);
    hide Server.Runs, Server.Exec, NoEnd;
    var z := Server.Exec(s, events);
    assert x in z.users.rows;
    CredentialsExact(z.users, x, attempt);
    hide Inv, MatchCredentials, UsersOk;
    assert z.users.sessions[c] in z.users.sessions.Values;
  }

  /** What a late request to authenticate does: handled after its connection has
      closed, with credentials that match while connection and user are free, it
      leaves a session behind, and in every run in which that connection neither
      logs out nor is dropped nobody else can log in as that user. */
  lemma LateAuthenticateLocksOut(s: State, rows: seq<Message>, c: nat, r: nat, name: string, password: string,
                                 events: seq<Event>, d: nat, q: nat, attempt: string)
    requires Inv(s, rows) && c in s.wire.closed
    requires LogsIn(s, Ask(c, r, Authenticate(name, password)), c)
    requires var t := HandleAuthenticate(s, c, r, name, password); Server.Runs(t, events) && NoEnd(events, c)
    ensures var z := Server.Exec(HandleAuthenticate(s, c, r, name, password), events);
      c in z.users.sessions && Answer(z, d, q, Authenticate(name, attempt)).ErrorReply?
  {
    var e := Ask(c, r, Authenticate(name, password));
    var t := HandleAuthenticate(s, c, r, name, password);
    var x := MatchCredentials(s.users, name, password).value;
    LateLogin(s, rows, c, r, name, password);
    hide Inv, LogsIn, HandleAuthenticate, MatchCredentials, Server.Exec, Server.Runs, NoEnd, Answer;
    LockoutLasts(t, rows, events, c, x, d, q, attempt);
  }

  lemma LateLogin(s: State, rows: seq<Message>, c: nat, r: nat, name: string, password: string)
    requires Inv(s, rows) && c in s.wire.closed
    requires LogsIn(s, Ask(c, r, Authenticate(name, password)), c)
    ensures var t := HandleAuthenticate(s, c, r, name, password);
      var x := MatchCredentials(s.users, name, password).value;
      && Inv(t, rows) && c in t.wire.closed && x.name == name
      && x in t.users.rows && c in t.users.sessions && t.users.sessions[c] == x.id
  {
    AuthenticateKeeps(s, rows, c, r, name, password);
    AuthenticateIs(s, rows, c, r, name, password);
    CredentialsKnown(s.users, name, password);
    hide Inv, HandleAuthenticate, MatchCredentials;
  }

  // -------------------------------------------------------------------- an example

  const EMPTY := Data([], map[], [], [])
  const ANN := Named(7, "ann")

  /** Two connections; the first creates an account, closes, is dropped, and only
      then is its request to authenticate handled; then the second asks. */
  function LockedOut(): seq<Event> {
    [Connect, Connect, Ask(1, 1, CreateUser("ann", "pw", 7)), Close(1), Drop(1),
     Ask(1, 2, Authenticate("ann", "pw")), Ask(2, 3, Authenticate("ann", "pw"))]
  }

  function Scene(rows: seq<Named>, passwords: map<nat, string>, sessions: map<nat, nat>, wire: Wire): State {
    State(Users(rows, passwords, [], sessions), Channels([], [], map[]), HT.Start([], []), wire, false)
  }

  const BOTH := [Opened(1), Opened(2)]
  const MADE := BOTH + [Send(1, CreateUserReply(1, ANN), true)]
  const LEFT := MADE + [Gone(1)]
  const LATE := LEFT + [Send(1, AuthenticateReply(2, ANN), false), Cast({2}, UserLogin(7))]
  const REFUSED := LATE + [Send(2, ErrorReply(3, "ann" + " is already logged in."), true)]

  lemma SceneConnect()
    ensures Initial(EMPTY) == Scene([], map[], map[], Wire(1, {}, {}, []))
    ensures Server.Step(Scene([], map[], map[], Wire(1, {}, {}, [])), Connect) == Scene([], map[], map[], Wire(2, {1}, {}, [Opened(1)]))
    ensures Server.Step(Scene([], map[], map[], Wire(2, {1}, {}, [Opened(1)])), Connect)
         == Scene([], map[], map[], Wire(3, {1, 2}, {}, BOTH))
  {
    assert IdsOf([]) == [];
    hide HT.Start;
    assert [Opened(1)] + [Opened(2)] == BOTH;
  }

  lemma SceneCreate()
    ensures var s := Scene([], map[], map[], Wire(3, {1, 2}, {}, BOTH));
      var e := Ask(1, 1, CreateUser("ann", "pw", 7));
      Server.Enabled(s, e) && Server.Step(s, e) == Scene([ANN], map[7 := "pw"], map[], Wire(3, {1, 2}, {}, MADE))
  {
    hide HT.Start;
  }

  lemma SceneClose()
    ensures var s := Scene([ANN], map[7 := "pw"], map[], Wire(3, {1, 2}, {}, MADE));
      Server.Step(s, Close(1)) == Scene([ANN], map[7 := "pw"], map[], Wire(3, {2}, {1}, LEFT))
    ensures var s := Scene([ANN], map[7 := "pw"], map[], Wire(3, {2}, {1}, LEFT)); Server.Step(s, Drop(1)) == s
  {
    hide HT.Start;
    assert {1, 2} - {1} == {2};
  }

  lemma AnnMatches(u: Users)
    requires u.rows == [ANN] && u.passwords == map[7 := "pw"]
    ensures MatchCredentials(u, "ann", "pw") == Some(ANN)
  {
    assert ByName([ANN], "ann") == Some(ANN);
  }

  lemma SceneLate()
    ensures var s := Scene([ANN], map[7 := "pw"], map[], Wire(3, {2}, {1}, LEFT));
      Server.Step(s, Ask(1, 2, Authenticate("ann", "pw")))
      == Scene([ANN], map[7 := "pw"], map[1 := 7], Wire(3, {2}, {1}, LATE))
  {
    var s := Scene([ANN], map[7 := "pw"], map[], Wire(3, {2}, {1}, LEFT));
    AnnMatches(s.users);
    hide HT.Start, MatchCredentials;
    var log := LEFT + [Send(1, AuthenticateReply(2, ANN), false)];
    assert log + [Cast({2}, UserLogin(7))] == LATE;
    assert {2} * {2} == {2};
    assert map[][1 := 7] == map[1 := 7];
  }

  lemma SceneRefused()
    ensures var s := Scene([ANN], map[7 := "pw"], map[1 := 7], Wire(3, {2}, {1}, LATE));
      Server.Step(s, Ask(2, 3, Authenticate("ann", "pw")))
      == Scene([ANN], map[7 := "pw"], map[1 := 7], Wire(3, {2}, {1}, REFUSED))
  {
    var s := Scene([ANN], map[7 := "pw"], map[1 := 7], Wire(3, {2}, {1}, LATE));
    AnnMatches(s.users);
    assert s.users.sessions[1] in s.users.sessions.Values;
    hide HT.Start, MatchCredentials;
    RefusedTaken(s, 2, 3, "ann", "pw", ANN);
    hide Handle;
  }

  lemma RefusedTaken(s: State, c: nat, r: nat, name: string, password: string, u: Named)
    requires c !in s.users.sessions && MatchCredentials(s.users, name, password) == Some(u) && u.id in s.users.sessions.Values
    ensures Handle(s, c, r, Authenticate(name, password)) == Sent(s, c, ErrorReply(r, name + " is already logged in."))
  {
    hide MatchCredentials, Sent;
  }

  lemma Prepend(s: State, a: Event, rest: seq<Event>, t: State, z: State)
    requires Server.Enabled(s, a) && Server.Step(s, a) == t && Server.Runs(t, rest) && Server.Exec(t, rest) == z
    ensures Server.Runs(s, [a] + rest) && Server.Exec(s, [a] + rest) == z
  {
    hide Server.Step, Server.Enabled;
    assert ([a] + rest)[1..] == rest;
  }

  /** A run of the server from an empty database in which a live connection cannot
      log in, with the right credentials, because a connection that has closed and
      been dropped holds the session. */
  lemma LockedOutExample()
    ensures ValidData(EMPTY) && Server.Runs(Initial(EMPTY), LockedOut())
    ensures var s := Server.Exec(Initial(EMPTY), LockedOut());
      && s.users.sessions == map[1 := 7] && 1 in s.wire.closed && 2 in s.wire.live
      && MatchCredentials(s.users, "ann", "pw") == Some(ANN)
      && s.wire.log == REFUSED
  {
    SceneConnect();
    SceneCreate();
    SceneClose();
    SceneLate();
    SceneRefused();
    assert ValidData(EMPTY) by { assert IdsOf([]) == []; }
    var s0 := Scene([], map[], map[], Wire(1, {}, {}, []));
    var s1 := Scene([], map[], map[], Wire(2, {1}, {}, [Opened(1)]));
    var s2 := Scene([], map[], map[], Wire(3, {1, 2}, {}, BOTH));
    var s3 := Scene([ANN], map[7 := "pw"], map[], Wire(3, {1, 2}, {}, MADE));
    var s4 := Scene([ANN], map[7 := "pw"], map[], Wire(3, {2}, {1}, LEFT));
    var s6 := Scene([ANN], map[7 := "pw"], map[1 := 7], Wire(3, {2}, {1}, LATE));
    var s7 := Scene([ANN], map[7 := "pw"], map[1 := 7], Wire(3, {2}, {1}, REFUSED));
    AnnMatches(s7.users);
    hide Server.Step, HT.Start, MatchCredentials, Initial;
    assert Server.Runs(s7, []) && Server.Exec(s7, []) == s7;
    hide Server.Runs, Server.Exec;
    Prepend(s6, Ask(2, 3, Authenticate("ann", "pw")), [], s7, s7);
    var p6 := [Ask(2, 3, Authenticate("ann", "pw"))] + [];
    Prepend(s4, Ask(1, 2, Authenticate("ann", "pw")), p6, s6, s7);
    var p5 := [Ask(1, 2, Authenticate("ann", "pw"))] + p6;
    Prepend(s4, Drop(1), p5, s4, s7);
    var p4 := [Drop(1)] + p5;
    Prepend(s3, Close(1), p4, s4, s7);
    var p3 := [Close(1)] + p4;
    Prepend(s2, Ask(1, 1, CreateUser("ann", "pw", 7)), p3, s3, s7);
    var p2 := [Ask(1, 1, CreateUser("ann", "pw", 7))] + p3;
    Prepend(s1, Connect, p2, s2, s7);
    var p1 := [Connect] + p2;
    Prepend(s0, Connect, p1, s1, s7);
    assert LockedOut() == [Connect] + p1;
  }
}
