/** The RPC system, its timeout handler and the part of the message handler and
    of the scheduler they use, field by field. Uninterrupted, its methods perform
    exactly the steps of the completion protocol. */
module RpcSystems {
  import opened Sequences
  import opened Rpc
  import opened RpcRuns

  class RpcSystem {
    var nextId: nat
    var calls: map<nat, Pending>
    // the signals of the message handler
    var counters: map<nat, nat>
    var slots: map<SlotKey, Slot>
    // the timeout handler
    var timeouts: map<nat, nat>
    // the scheduler
    var nextTask: nat
    var tasks: set<nat>
    // what has gone out and which callbacks have run
    var sent: set<nat>
    var completed: seq<Completion>
    // where the threads stand
    ghost var progress: State

    constructor ()
      ensures View() == START
    {
      nextId := 1;
      calls, counters, slots, timeouts := map[], map[], map[], map[];
      nextTask, tasks := 1, {};
      sent, completed := {}, [];
      progress := START;
    }

    ghost function View(): State
      reads this
    {
      progress.(nextRequest := nextId, calls := calls, counters := counters, slots := slots, timeouts := timeouts,
                nextTask := nextTask, tasks := tasks, sent := sent, completed := completed)
    }

    method Prepare(connection: nat, responseType: nat, timed: bool) returns (r: nat)
      requires responseType != ERROR_TYPE
      modifies this
      ensures r == old(nextId)
      ensures View() == Step(old(View()), Action.Prepare(connection, responseType, timed))
    {
      ghost var s := Step(View(), Action.Prepare(connection, responseType, timed));
      r := nextId;
      nextId := nextId + 1;
      progress := s;
    }

    method Subscribe(messageType: nat, slot: Slot) returns (key: SlotKey)
      modifies this`counters, this`slots
      ensures key == NewKey(old(View()), messageType)
      ensures View() == Subscribed(old(View()), messageType, slot)
    {
      var id := if messageType in counters then counters[messageType] else 0;
      key := SlotKey(messageType, id);
      counters := counters[messageType := id + 1];
      slots := slots[key := slot];
    }

    method ScheduleTimeout(r: nat)
      requires At(View(), r, Registered) && r in View().issued && View().issued[r].timed
      modifies this`nextTask, this`tasks, this`timeouts, this`progress
      ensures Runs(old(View()), [AddTask(r), Arm(r)]) && View() == Exec(old(View()), [AddTask(r), Arm(r)])
    {
      ghost var s1 := Step(View(), AddTask(r));
      var handle := nextTask;
      nextTask := nextTask + 1;
      tasks := tasks + {handle};
      progress := s1;
      assert View() == s1;
      ghost var s2 := Step(s1, Arm(r));
      timeouts := timeouts[r := handle];
      progress := s2;
      assert View() == s2;
      ExecAppend(s1, Arm(r), []);
      ExecAppend(old(View()), AddTask(r), [Arm(r)]);
      assert [AddTask(r)] + [Arm(r)] == [AddTask(r), Arm(r)];
    }

    /** The call becomes pending and takes over its two subscriptions. */
    method Register(r: nat, pending: Pending)
      requires At(View(), r, TwoSlots(pending))
      modifies this`calls, this`progress
      ensures View() == Step(old(View()), Action.Register(r))
    {
      ghost var s := Step(View(), Action.Register(r));
      calls := calls[r := pending];
      progress := s;
    }

    method Send(r: nat)
      requires Enabled(View(), Action.Send(r))
      modifies this`sent, this`progress
      ensures View() == Step(old(View()), Action.Send(r))
    {
      ghost var s := Step(View(), Action.Send(r));
      sent := sent + {r};
      progress := s;
    }

    method SubscribeSuccess(r: nat, request: Request) returns (key: SlotKey)
      requires At(View(), r, Prepared) && r in View().issued && View().issued[r] == request
      modifies this`counters, this`slots, this`progress
      ensures View() == Step(old(View()), Action.SubscribeSuccess(r))
      ensures At(View(), r, OneSlot(key)) && View().issued == old(View()).issued
    {
      ghost var s := Step(View(), Action.SubscribeSuccess(r));
      key := Subscribe(request.responseType, Slot(r, request.connection, Success));
      progress := s;
    }

    method SubscribeError(r: nat, request: Request, success: SlotKey) returns (key: SlotKey)
      requires At(View(), r, OneSlot(success)) && r in View().issued && View().issued[r] == request
      modifies this`counters, this`slots, this`progress
      ensures View() == Step(old(View()), Action.SubscribeError(r))
      ensures At(View(), r, TwoSlots(Pending(success, key))) && View().issued == old(View()).issued
    {
      ghost var s := Step(View(), Action.SubscribeError(r));
      key := Subscribe(ERROR_TYPE, Slot(r, request.connection, Error));
      progress := s;
    }

    /** Subscribe to both replies, register the call, arm its timeout, send. */
    method Call(r: nat, request: Request)
      requires At(View(), r, Prepared) && r in View().issued && View().issued[r] == request
      modifies this
      ensures Runs(old(View()), CallSteps(r, request)) && View() == Exec(old(View()), CallSteps(r, request))
    {
      ghost var s := View();
      var success := SubscribeSuccess(r, request);
      ghost var s1 := View();
      var error := SubscribeError(r, request, success);
      ghost var s2 := View();
      Register(r, Pending(success, error));
      ghost var s3 := View();
      assert At(s3, r, Registered) && s3.issued == s.issued;
      hide Step, Exec, Runs;
      if request.timed {
        ScheduleTimeout(r);
        ArmedState(s3, r);
      }
      ghost var s4 := View();
      Send(r);
      CallIsSteps(s, s1, s2, s3, s4, View(), r, request);
    }

    /** The timeout handler forgets the request. */
    method ForgetTimeout(r: nat) returns (task: Option<nat>)
      requires AtStage(View(), r, Erased)
      modifies this`timeouts, this`progress
      ensures View() == Step(old(View()), CancelEntry(r))
      ensures AtStage(View(), r, Cancelled(task))
      ensures View().finishing[r] == old(View()).finishing[r].(stage := Cancelled(task))
    {
      ghost var s := Step(View(), CancelEntry(r));
      task := if r in timeouts then Some(timeouts[r]) else None;
      timeouts := timeouts - {r};
      progress := s;
    }

    /** The scheduler forgets the task the timeout handler had, if any. */
    method RemoveTask(r: nat, task: Option<nat>)
      requires AtStage(View(), r, Cancelled(task))
      modifies this`tasks, this`progress
      ensures View() == Step(old(View()), Action.RemoveTask(r))
      ensures AtStage(View(), r, Ready)
      ensures View().finishing[r] == old(View()).finishing[r].(stage := Ready)
    {
      ghost var s := Step(View(), Action.RemoveTask(r));
      if task.Some? { tasks := tasks - {task.value}; }
      progress := s;
    }

    /** The lock of HandleCallback: whoever finds the call pending erases it with
        its subscriptions. */
    method Erase(r: nat, kind: Kind, reply: Option<Reply>) returns (found: bool)
      modifies this`slots, this`calls, this`progress
      ensures found <==> r in old(calls)
      ensures View() == Claim(old(View()), r, kind, reply)
      ensures found ==> AtStage(View(), r, Erased) && View().finishing[r] == Winner(kind, reply, Erased)
      ensures View().completed == old(View()).completed
    {
      ghost var s := Claim(View(), r, kind, reply);
      found := r in calls;
      if found {
        slots := slots - {calls[r].success, calls[r].error};
        calls := calls - {r};
      }
      progress := s;
    }

    method Complete(r: nat, kind: Kind, reply: Option<Reply>)
      requires AtStage(View(), r, Ready) && View().finishing[r] == Winner(kind, reply, Ready)
      modifies this`completed, this`progress
      ensures View() == Step(old(View()), RunCallback(r))
    {
      ghost var s := Step(View(), RunCallback(r));
      completed := completed + [Completion(r, kind, reply)];
      progress := s;
    }

    /** Whoever finds the call pending erases it with its subscriptions, cancels
        its timeout and runs the callback; everyone else does nothing. */
    method HandleCallback(r: nat, kind: Kind, reply: Option<Reply>)
      modifies this
      ensures r !in old(calls) ==> View() == old(View())
      ensures r in old(calls) ==>
                var claimed := Claim(old(View()), r, kind, reply);
                && Runs(claimed, [CancelEntry(r), Action.RemoveTask(r), RunCallback(r)])
                && View() == Exec(claimed, [CancelEntry(r), Action.RemoveTask(r), RunCallback(r)])
                && View().completed == old(View()).completed + [Completion(r, kind, reply)]
    {
      hide Claim, Exec, Runs, Step;
      var found := Erase(r, kind, reply);
      if !found {
        ClaimMissing(old(View()), r, kind, reply);
        return;
      }
      ghost var s := View();
      FinishClaimed(s, r);
      var task := ForgetTimeout(r);
      RemoveTask(r, task);
      ghost var s2 := View();
      Complete(r, kind, reply);
      FinishIsSteps(s, s2, View(), r);
    }
  }

  lemma ClaimMissing(s: State, r: nat, kind: Kind, reply: Option<Reply>)
    requires r !in s.calls
    ensures Claim(s, r, kind, reply) == s
  {
  }

  lemma FinishIsSteps(s: State, s2: State, s3: State, r: nat)
    requires AtStage(s, r, Erased)
    requires Enabled(Step(s, CancelEntry(r)), RemoveTask(r)) && s2 == Step(Step(s, CancelEntry(r)), RemoveTask(r))
    requires Enabled(s2, RunCallback(r)) && s3 == Step(s2, RunCallback(r))
    ensures var path := [CancelEntry(r), RemoveTask(r), RunCallback(r)];
      Runs(s, path) && Exec(s, path) == s3
  {
    hide Step, Exec, Runs;
    var s1 := Step(s, CancelEntry(r));
    ExecNothing(s3);
    ExecAppend(s2, RunCallback(r), []);
    assert [RunCallback(r)] + [] == [RunCallback(r)];
    ExecAppend(s1, RemoveTask(r), [RunCallback(r)]);
    ExecAppend(s, CancelEntry(r), [RemoveTask(r)] + [RunCallback(r)]);
    assert [CancelEntry(r)] + ([RemoveTask(r)] + [RunCallback(r)]) == [CancelEntry(r), RemoveTask(r), RunCallback(r)];
  }

  /** The steps of an uninterrupted Call. */
  function CallSteps(r: nat, request: Request): seq<Action> {
    [SubscribeSuccess(r), SubscribeError(r), Register(r)] + (if request.timed then [AddTask(r), Arm(r)] else []) + [Send(r)]
  }

  lemma ArmedState(s: State, r: nat)
    requires Runs(s, [AddTask(r), Arm(r)])
    ensures var t := Exec(s, [AddTask(r), Arm(r)]); At(t, r, Armed) && t.issued == s.issued
  {
    var actions := [AddTask(r), Arm(r)];
    assert actions[0] == AddTask(r) && actions[1..] == [Arm(r)];
    var s1 := Step(s, AddTask(r));
    assert Exec(s, actions) == Exec(s1, [Arm(r)]);
    assert [Arm(r)][1..] == [];
    assert Exec(s1, [Arm(r)]) == Step(s1, Arm(r));
  }

  lemma CallIsSteps(s: State, s1: State, s2: State, s3: State, s4: State, s5: State, r: nat, request: Request)
    requires Enabled(s, SubscribeSuccess(r)) && s1 == Step(s, SubscribeSuccess(r))
    requires Enabled(s1, SubscribeError(r)) && s2 == Step(s1, SubscribeError(r))
    requires Enabled(s2, Register(r)) && s3 == Step(s2, Register(r))
    requires request.timed ==> Runs(s3, [AddTask(r), Arm(r)]) && s4 == Exec(s3, [AddTask(r), Arm(r)])
    requires !request.timed ==> s4 == s3
    requires Enabled(s4, Send(r)) && s5 == Step(s4, Send(r))
    ensures Runs(s, CallSteps(r, request)) && Exec(s, CallSteps(r, request)) == s5
  {
    hide Step, Enabled;
    var middle := if request.timed then [AddTask(r), Arm(r)] else [];
    assert Runs(s3, middle) && Exec(s3, middle) == s4;
    hide Exec, Runs;
    ExecNothing(s5);
    ExecAppend(s4, Send(r), []);
    assert [Send(r)] + [] == [Send(r)];
    ExecConcat(s3, middle, [Send(r)]);
    ExecAppend(s2, Register(r), middle + [Send(r)]);
    ExecAppend(s1, SubscribeError(r), [Register(r)] + (middle + [Send(r)]));
    ExecAppend(s, SubscribeSuccess(r), [SubscribeError(r)] + ([Register(r)] + (middle + [Send(r)])));
    assert CallSteps(r, request) == [SubscribeSuccess(r)] + ([SubscribeError(r)] + ([Register(r)] + (middle + [Send(r)])));
  }
}
