/** What becomes of every call over every run: it is sent once registered, and from
    then on it is pending, being finished, or completed, until it is completed. */
module RpcCalls {
  import opened Sequences
  import opened Rpc
  import opened RpcRuns

  /** Sent are exactly the calls whose Call has returned. */
  ghost predicate SentOk(s: State) {
    && (forall r :: r in s.sent <==> r in s.issued && r !in s.calling)
    && (forall r | r in s.calling :: r in s.issued)
    && (forall r | r in s.issued :: r < s.nextRequest)
  }

  /** A registered call is somewhere. */
  predicate Accounted(s: State, r: nat) {
    Early(s, r) || r in s.calls || r in s.finishing || HasCompleted(s, r)
  }

  ghost predicate AllAccounted(s: State) {
    forall r | r in s.issued :: Accounted(s, r)
  }

  // ------------------------------------------------------------------ the steps

  lemma ClaimKeepsSent(s: State, r: nat, kind: Kind, reply: Option<Reply>)
    ensures var t := Claim(s, r, kind, reply);
      t.sent == s.sent && t.issued == s.issued && t.calling == s.calling && t.nextRequest == s.nextRequest
  {
  }

  lemma ClaimingKeepsSent(s: State, a: Action)
    requires Enabled(s, a) && (a.RunSlot? || a.RunTimeout?)
    ensures var t := Step(s, a);
      t.sent == s.sent && t.issued == s.issued && t.calling == s.calling && t.nextRequest == s.nextRequest
  {
    hide Claim;
    if a.RunSlot? {
      var e := s.emission.value;
      var key := SlotKey(e.reply.messageType, a.id);
      var t := s.(emission := Some(e.(todo := e.todo - {a.id})));
      if key in s.slots { ClaimKeepsSent(t, s.slots[key].request, s.slots[key].kind, Some(e.reply)); }
    } else {
      ClaimKeepsSent(s.(collected := s.collected - {a.t}), s.owner[a.t], Timeout, None);
    }
  }

  lemma SentStep(s: State, a: Action)
    requires SentOk(s) && Enabled(s, a)
    ensures SentOk(Step(s, a))
  {
    if a.RunSlot? || a.RunTimeout? {
      ClaimingKeepsSent(s, a);
      hide Step;
    } else {
      hide Claim;
    }
  }

  lemma ClaimAccounts(s: State, t: State, q: nat, kind: Kind, reply: Option<Reply>, r: nat)
    requires Accounted(s, r)
    requires t.calling == s.calling && t.calls == s.calls && t.finishing == s.finishing && t.completed == s.completed
    ensures Accounted(Claim(t, q, kind, reply), r)
  {
    CompletedUnchanged(s, Claim(t, q, kind, reply));
    hide HasCompleted;
  }

  lemma CallbackAccounts(s: State, q: nat, r: nat)
    requires Enabled(s, RunCallback(q)) && Accounted(s, r)
    ensures Accounted(Step(s, RunCallback(q)), r)
  {
    var t := Step(s, RunCallback(q));
    if HasCompleted(s, r) {
      var i :| 0 <= i < |s.completed| && s.completed[i].request == r;
      assert t.completed[i].request == r;
    }
    assert t.completed[|s.completed|].request == q;
  }

  lemma OtherAccounts(s: State, a: Action, r: nat)
    requires Enabled(s, a) && !a.RunSlot? && !a.RunTimeout? && !a.RunCallback?
    requires Accounted(s, r)
    ensures Accounted(Step(s, a), r)
  {
    CompletedUnchanged(s, Step(s, a));
    hide HasCompleted;
  }

  lemma AccountedStep(s: State, a: Action, r: nat)
    requires Enabled(s, a) && Accounted(s, r)
    ensures Accounted(Step(s, a), r)
  {
    hide Accounted, Claim;
    if a.RunSlot? {
      var e := s.emission.value;
      var key := SlotKey(e.reply.messageType, a.id);
      var t := s.(emission := Some(e.(todo := e.todo - {a.id})));
      ClaimAccounts(s, t, 0, Timeout, None, r);
      SameAccounted(s, t, r);
      if key in s.slots { ClaimAccounts(s, t, s.slots[key].request, s.slots[key].kind, Some(e.reply), r); }
    } else if a.RunTimeout? {
      ClaimAccounts(s, s.(collected := s.collected - {a.t}), s.owner[a.t], Timeout, None, r);
    } else if a.RunCallback? {
      hide Step;
      CallbackAccounts(s, a.r, r);
    } else {
      hide Step;
      OtherAccounts(s, a, r);
    }
  }

  lemma SameAccounted(s: State, t: State, r: nat)
    requires Accounted(s, r)
    requires t.calling == s.calling && t.calls == s.calls && t.finishing == s.finishing && t.completed == s.completed
    ensures Accounted(t, r)
  {
    CompletedUnchanged(s, t);
    hide HasCompleted;
  }

  lemma NewIssued(s: State, a: Action, r: nat)
    requires Enabled(s, a) && r in Step(s, a).issued && r !in s.issued
    ensures Early(Step(s, a), r)
  {
  }

  lemma AccountedStepAll(s: State, a: Action)
    requires Enabled(s, a) && AllAccounted(s)
    ensures AllAccounted(Step(s, a))
  {
    hide Step, Enabled, Early, HasCompleted;
    var t := Step(s, a);
    forall r | r in t.issued ensures Accounted(t, r) {
      if r in s.issued { AccountedStep(s, a, r); } else { NewIssued(s, a, r); }
    }
  }

  lemma {:induction false} LedgerRun(s: State, actions: seq<Action>)
    requires SentOk(s) && AllAccounted(s) && Runs(s, actions)
    ensures SentOk(Exec(s, actions)) && AllAccounted(Exec(s, actions))
    decreases |actions|
  {
    hide SentOk, AllAccounted, Step, Enabled;
    if actions != [] {
      SentStep(s, actions[0]);
      AccountedStepAll(s, actions[0]);
      LedgerRun(Step(s, actions[0]), actions[1..]);
    }
  }

  // -------------------------------------------------------------------- theorems

  /** In every run: a request goes out exactly when its Call has come to its end, and
      no call is lost or in two places: from its registration on it is pending, or
      being finished, or completed, and never two of these. */
  lemma NoCallIsLost(actions: seq<Action>, r: nat)
    requires Runs(START, actions) && r in Exec(START, actions).issued
    ensures var s := Exec(START, actions);
      && (r in s.sent <==> r !in s.calling)
      && (Early(s, r) || r in s.calls || r in s.finishing || HasCompleted(s, r))
      && !(Early(s, r) && (r in s.calls || r in s.finishing || HasCompleted(s, r)))
      && !(r in s.calls && (r in s.finishing || HasCompleted(s, r)))
      && !(r in s.finishing && HasCompleted(s, r))
  {
    StartOk();
    RunKeeps(START, actions);
    assert SentOk(START) && AllAccounted(START);
    LedgerRun(START, actions);
    hide Exec, Runs, SlotsOk, TasksOk, TimeoutsOk, RepliesOk, HasCompleted, Early;
  }

  /** Cancelling the timeout of a finished call: its entry goes, and the task it named,
      if it had one, goes from the scheduler; no other entry or task does. */
  lemma CancelTakesEntryAndTask(s: State, r: nat)
    requires AtStage(s, r, Erased)
    ensures var path := [CancelEntry(r), RemoveTask(r)];
      && Runs(s, path)
      && var t := Exec(s, path);
         && t.timeouts == s.timeouts - {r}
         && t.tasks == (if r in s.timeouts then s.tasks - {s.timeouts[r]} else s.tasks)
         && t.calls == s.calls && t.completed == s.completed
  {
    var s1 := Step(s, CancelEntry(r));
    var s2 := Step(s1, RemoveTask(r));
    assert s1.timeouts == s.timeouts - {r} && s1.tasks == s.tasks && s1.calls == s.calls && s1.completed == s.completed;
    assert s2.timeouts == s1.timeouts && s2.calls == s1.calls && s2.completed == s1.completed;
    assert s2.tasks == if r in s.timeouts then s.tasks - {s.timeouts[r]} else s.tasks;
    assert Enabled(s, CancelEntry(r)) && Enabled(s1, RemoveTask(r));
    hide Step, Enabled, Runs, Exec;
    ExecNothing(s2);
    ExecAppend(s1, RemoveTask(r), []);
    ExecAppend(s, CancelEntry(r), [RemoveTask(r)] + []);
    assert [CancelEntry(r)] + ([RemoveTask(r)] + []) == [CancelEntry(r), RemoveTask(r)];
  }
}
