/** The scheduling system, field by field: each method is one locked section, or the
    notification after it, and performs exactly one step of the scheduler. */
module SchedulingSystems {
  import opened Sequences
  import opened Scheduler

  class SchedulingSystem {
    var nextId: nat
    var tasks: map<nat, Task>
    // the clock, what was requested, what has fired, and where the threads stand
    ghost var progress: State

    constructor ()
      ensures View() == START
    {
      nextId, tasks := 1, map[];
      progress := START;
    }

    ghost function View(): State
      reads this
    {
      progress.(nextId := nextId, tasks := tasks)
    }

    /** AddTask up to the lock: the id and the first due time are fixed here. */
    method StampTask(now: nat, interval: int, once: bool) returns (id: nat, task: Task)
      requires now == View().clock
      modifies this`nextId, this`progress
      ensures View() == Step(old(View()), Stamp(interval, once))
      ensures id == old(nextId) && id in View().adding && View().adding[id] == task
      ensures task.due == now + (if interval <= 15_000_000 then 15_000_000 else interval) && task.once == once
    {
      ghost var s := Step(View(), Stamp(interval, once));
      id := nextId;
      nextId := nextId + 1;
      var clamped := interval;
      if clamped <= MIN_INTERVAL { clamped := MIN_INTERVAL; }
      task := Task(clamped, now + clamped, once);
      progress := s;
    }

    method EmplaceTask(id: nat, task: Task)
      requires id in View().adding && View().adding[id] == task
      modifies this`tasks, this`progress
      ensures View() == Step(old(View()), Emplace(id))
    {
      ghost var s := Step(View(), Emplace(id));
      tasks := tasks[id := task];
      progress := s;
    }

    /** After the lock: whoever has changed the table wakes the thread. */
    method NotifyOne()
      requires Enabled(View(), Notify)
      modifies this`progress
      ensures View() == Step(old(View()), Notify)
    {
      progress := Step(View(), Notify);
    }

    method RemoveTask(handle: nat)
      modifies this`tasks, this`progress
      ensures View() == Step(old(View()), Remove(handle))
    {
      ghost var s := Step(View(), Remove(handle));
      tasks := tasks - {handle};
      progress := s;
    }

    /** The body of that loop: a due task is collected and put off, and a task that
        stays in the table may bring the wake time forward. */
    method VisitTask(id: nat, now: nat, callbacks: seq<nat>, oneShots: seq<nat>, wake: Option<nat>)
      returns (callbacks': seq<nat>, oneShots': seq<nat>, wake': Option<nat>)
      requires id in tasks
      modifies this`tasks
      ensures Gathered(tasks, callbacks', oneShots', wake') == Visit(Gathered(old(tasks), callbacks, oneShots, wake), id, now)
    {
      callbacks', oneShots', wake' := callbacks, oneShots, wake;
      var task := tasks[id];
      if now >= task.due {
        callbacks' := callbacks' + [id];
        task := task.(due := now + task.interval);
        tasks := tasks[id := task];
        if task.once {
          oneShots' := oneShots' + [id];
          return;
        }
      }
      if wake'.None? || task.due < wake'.value { wake' := Some(task.due); }
    }

    /** The loop of a pass over the task table, in its storage order. */
    method ScanTasks(now: nat, order: seq<nat>) returns (callbacks: seq<nat>, oneShots: seq<nat>, wake: Option<nat>)
      requires forall id | id in order :: id in tasks
      modifies this`tasks
      ensures Gathered(tasks, callbacks, oneShots, wake) == Scan(old(tasks), order, now)
    {
      callbacks, oneShots, wake := [], [], None;
      ghost var before := tasks;
      for i := 0 to |order|
        invariant forall id | id in order[..i] :: id in before
        invariant Gathered(tasks, callbacks, oneShots, wake) == Scan(before, order[..i], now)
      {
        ScanNext(before, order, i, now);
        hide Scan, Visit;
        callbacks, oneShots, wake := VisitTask(order[i], now, callbacks, oneShots, wake);
      }
      assert order[..|order|] == order;
    }

    /** The locked part of a pass: the callbacks to run, the one-shots to erase
        and the time to sleep until. */
    method CollectDue(now: nat, order: seq<nat>) returns (callbacks: seq<nat>, oneShots: seq<nat>, wake: Option<nat>)
      requires now == View().clock && Enabled(View(), Collect(order))
      modifies this`tasks, this`progress
      ensures View() == Step(old(View()), Collect(order))
      ensures View().thread == Running(Pass(callbacks, oneShots, wake, old(tasks).Keys))
      ensures forall id :: id in callbacks <==> IsDue(old(tasks), id, now)
      ensures forall id | Survives(old(tasks), id, now) :: id in tasks && WakesFor(wake, tasks[id])
    {
      ghost var before := View();
      hide ScanOk, Scan, Step;
      callbacks, oneShots, wake := ScanTasks(now, order);
      CollectGathers(before, order);
      progress := before.(thread := Running(Pass(callbacks, oneShots, wake, before.tasks.Keys)));
    }

    /** The locked end of a pass. */
    method ErasePass(oneShots: seq<nat>)
      requires Enabled(View(), EndPass) && View().thread.pass.oneShots == oneShots
      modifies this`tasks, this`progress
      ensures View() == Step(old(View()), EndPass)
    {
      ghost var s := Step(View(), EndPass);
      for i := 0 to |oneShots|
        invariant progress == old(progress)
        invariant tasks == Erased(old(tasks), oneShots[..i])
      {
        tasks := tasks - {oneShots[i]};
      }
      progress := s;
      assert oneShots[..|oneShots|] == oneShots;
    }
  }

  lemma ScanNext(tasks: map<nat, Task>, order: seq<nat>, i: nat, now: nat)
    requires i < |order| && forall id | id in order :: id in tasks
    ensures forall id | id in order[..i] :: id in tasks
    ensures order[i] in Scan(tasks, order[..i], now).tasks
    ensures Scan(tasks, order[..i + 1], now) == Visit(Scan(tasks, order[..i], now), order[i], now)
  {
    assert order[..i + 1][..i] == order[..i];
  }

  lemma CollectGathers(s: State, order: seq<nat>)
    requires Enabled(s, Collect(order))
    ensures forall id | id in order :: id in s.tasks
    ensures var g := Scan(s.tasks, order, s.clock);
      && Step(s, Collect(order)) == s.(tasks := g.tasks, thread := Running(Pass(g.callbacks, g.oneShots, g.wake, s.tasks.Keys)))
      && (forall id :: id in g.callbacks <==> IsDue(s.tasks, id, s.clock))
      && (forall id | Survives(s.tasks, id, s.clock) :: id in g.tasks && WakesFor(g.wake, g.tasks[id]))
  {
    PassIsExact(s.tasks, order, s.clock);
    hide Scan;
  }
}
