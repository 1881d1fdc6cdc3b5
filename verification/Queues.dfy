/** The queue of outgoing buffers of a connection as a state machine over the
    locked sections of its threads. */
module OutgoingQueue {
  /** Threads about to call SendNext, buffers not yet taken, writes under way and
      the buffers in the order in which they were accepted, taken and written. */
  datatype State<T> = State(
    starters: nat,
    queue: seq<T>,
    writing: seq<T>,
    failed: bool,
    accepted: seq<T>,
    taken: seq<T>,
    written: seq<T>)

  datatype Action<T> =
    | Enqueue(buffer: T)
    | SendNext
    | Complete(i: nat, error: bool)

  function Start<T>(): State<T> {
    State(0, [], [], false, [], [], [])
  }

  predicate Enabled<T>(s: State<T>, a: Action<T>) {
    match a
    case Enqueue(_) => true
    case SendNext => s.starters > 0
    case Complete(i, _) => i < |s.writing|
  }

  /** Only a buffer that finds the queue empty makes its sender start a write; a
      write that ends well starts the next one. */
  function Step<T>(s: State<T>, a: Action<T>): State<T>
    requires Enabled(s, a)
  {
    match a
    case Enqueue(b) =>
      s.(queue := s.queue + [b], accepted := s.accepted + [b],
         starters := if |s.queue| + 1 > 1 then s.starters else s.starters + 1)
    case SendNext =>
      if s.queue == [] then s.(starters := s.starters - 1)
      else
        s.(starters := s.starters - 1, queue := s.queue[1..],
           writing := s.writing + [s.queue[0]], taken := s.taken + [s.queue[0]])
    case Complete(i, error) =>
      var t := s.(writing := s.writing[..i] + s.writing[i + 1..]);
      if error then t.(failed := true)
      else t.(written := s.written + [s.writing[i]], starters := s.starters + 1)
  }

  predicate Runs<T>(s: State<T>, actions: seq<Action<T>>)
    decreases |actions|
  {
    actions == [] || (Enabled(s, actions[0]) && Runs(Step(s, actions[0]), actions[1..]))
  }

  function Exec<T>(s: State<T>, actions: seq<Action<T>>): State<T>
    requires Runs(s, actions)
    decreases |actions|
  {
    if actions == [] then s else Exec(Step(s, actions[0]), actions[1..])
  }

  /** Whoever will take the next buffer. */
  function Writers<T>(s: State<T>): nat {
    s.starters + |s.writing|
  }

  ghost predicate Inv<T>(s: State<T>) {
    && s.taken + s.queue == s.accepted
    && (!s.failed && s.queue != [] ==> Writers(s) > 0)
    && (!s.failed ==> multiset(s.written) + multiset(s.writing) == multiset(s.taken))
  }

  lemma CompleteMultiset<T>(writing: seq<T>, i: nat)
    requires i < |writing|
    ensures multiset(writing[..i] + writing[i + 1..]) + multiset{writing[i]} == multiset(writing)
  {
    assert writing == writing[..i] + [writing[i]] + writing[i + 1..];
  }

  lemma CompleteKeeps<T>(s: State<T>, i: nat, error: bool)
    requires Inv(s) && Enabled(s, Complete(i, error))
    ensures Inv(Step(s, Complete(i, error)))
  {
    var t := Step(s, Complete(i, error));
    assert t.taken == s.taken && t.queue == s.queue && t.accepted == s.accepted;
    if !t.failed {
      CompleteMultiset(s.writing, i);
      assert multiset(t.written) == multiset(s.written) + multiset{s.writing[i]};
    }
  }

  lemma EnqueueKeeps<T>(s: State<T>, b: T)
    requires Inv(s)
    ensures Inv(Step(s, Enqueue(b)))
  {
    assert s.taken + (s.queue + [b]) == s.taken + s.queue + [b];
  }

  lemma SendNextKeeps<T>(s: State<T>)
    requires Inv(s) && Enabled(s, SendNext)
    ensures Inv(Step(s, SendNext))
  {
    if s.queue != [] { assert s.taken + [s.queue[0]] + s.queue[1..] == s.taken + s.queue; }
  }

  lemma StepKeeps<T>(s: State<T>, a: Action<T>)
    requires Inv(s) && Enabled(s, a)
    ensures Inv(Step(s, a))
  {
    hide Inv, Step, Enabled;
    match a
    case Enqueue(b) => EnqueueKeeps(s, b);
    case SendNext => SendNextKeeps(s);
    case Complete(i, error) => CompleteKeeps(s, i, error);
  }

  lemma {:induction false} RunKeeps<T>(s: State<T>, actions: seq<Action<T>>)
    requires Inv(s) && Runs(s, actions)
    ensures Inv(Exec(s, actions))
    decreases |actions|
  {
    hide Inv, Step, Enabled;
    if actions != [] {
      StepKeeps(s, actions[0]);
      RunKeeps(Step(s, actions[0]), actions[1..]);
    }
  }

  /** Over every interleaving, buffers are taken for writing in the order they
      were accepted, each exactly once; as long as no write fails, a waiting
      buffer always has a write under way or a thread about to take it, and once
      all is quiet every accepted buffer has been written. */
  lemma NothingIsLost<T>(actions: seq<Action<T>>)
    requires Runs(Start<T>(), actions)
    ensures var s := Exec(Start<T>(), actions);
      && s.taken + s.queue == s.accepted
      && (!s.failed && s.queue != [] ==> s.starters > 0 || s.writing != [])
      && (!s.failed && s.starters == 0 && s.writing == [] ==>
            s.taken == s.accepted && multiset(s.written) == multiset(s.accepted))
  {
    RunKeeps(Start<T>(), actions);
    hide Exec, Runs;
    var s := Exec(Start<T>(), actions);
    assert s.writing == [] ==> multiset(s.writing) == multiset{};
    assert s.queue == [] ==> s.taken + s.queue == s.taken;
  }

  lemma QuietQueue<T>(actions: seq<Action<T>>)
    requires Runs(Start<T>(), actions)
    ensures var s := Exec(Start<T>(), actions); !s.failed && Writers(s) == 0 ==> s.queue == []
  {
    RunKeeps(Start<T>(), actions);
  }

  // --------------------------------------------------------- when a write fails

  /** With nobody left to take a waiting buffer, nothing is ever taken again: later
      buffers find the queue non-empty and start nothing. */
  lemma {:induction false} StrandedForever<T>(s: State<T>, actions: seq<Action<T>>)
    requires s.queue != [] && s.starters == 0 && s.writing == [] && Runs(s, actions)
    ensures var t := Exec(s, actions);
      t.taken == s.taken && t.written == s.written && t.starters == 0 && t.writing == [] && s.queue <= t.queue
    decreases |actions|
  {
    if actions != [] { StrandedForever(Step(s, actions[0]), actions[1..]); }
  }

  /** Exactly when that is so: some continuation takes a waiting buffer unless no thread
      is about to start a write and none is under way. */
  lemma StrandedIff<T>(s: State<T>)
    requires s.queue != []
    ensures (forall actions | Runs(s, actions) :: Exec(s, actions).taken == s.taken) <==> s.starters == 0 && s.writing == []
  {
    if s.starters == 0 && s.writing == [] {
      forall actions | Runs(s, actions) ensures Exec(s, actions).taken == s.taken {
        StrandedForever(s, actions);
      }
    } else {
      var path := SomebodyTakes(s);
    }
  }

  lemma SomebodyTakes<T>(s: State<T>) returns (path: seq<Action<T>>)
    requires s.queue != [] && (s.starters > 0 || s.writing != [])
    ensures Runs(s, path) && Exec(s, path).taken == s.taken + [s.queue[0]]
  {
    if s.starters > 0 {
      path := [SendNext];
      TakenBy(s);
    } else {
      path := [Complete(0, false), SendNext];
      TakenBy(Step(s, Complete(0, false)));
      assert path[1..] == [SendNext];
    }
  }

  lemma TakenBy<T>(s: State<T>)
    requires s.queue != [] && s.starters > 0
    ensures Runs(s, [SendNext]) && Exec(s, [SendNext]).taken == s.taken + [s.queue[0]]
  {
    var path: seq<Action<T>> := [SendNext];
    assert path[1..] == [];
  }

  /** A write that fails starts nothing: while it was the last writer, the buffers
      waiting behind it are never taken, whatever happens next. */
  lemma FailureStrands<T>(s: State<T>, x: T, actions: seq<Action<T>>)
    requires s.queue != [] && s.starters == 0 && s.writing == [x]
    requires Runs(Step(s, Complete(0, true)), actions)
    ensures var t := Exec(Step(s, Complete(0, true)), actions);
      t.failed && t.taken == s.taken && t.written == s.written && s.queue <= t.queue
  {
    var t := Step(s, Complete(0, true));
    StrandedForever(t, actions);
    FailedStays(t, actions);
    hide Exec, Runs;
  }

  lemma {:induction false} FailedStays<T>(s: State<T>, actions: seq<Action<T>>)
    requires s.failed && Runs(s, actions)
    ensures Exec(s, actions).failed
    decreases |actions|
  {
    if actions != [] { FailedStays(Step(s, actions[0]), actions[1..]); }
  }

  // ------------------------------------------------- how many writes at a time

  /** At most one writer in every state of the run. */
  predicate Single<T>(s: State<T>, actions: seq<Action<T>>)
    requires Runs(s, actions)
    decreases |actions|
  {
    Writers(s) <= 1 && (actions == [] || Single(Step(s, actions[0]), actions[1..]))
  }

  /** No buffer is accepted while the queue is empty and a writer is at work. */
  predicate Spaced<T>(s: State<T>, actions: seq<Action<T>>)
    requires Runs(s, actions)
    decreases |actions|
  {
    actions == [] ||
    (!(actions[0].Enqueue? && s.queue == [] && Writers(s) > 0) && Spaced(Step(s, actions[0]), actions[1..]))
  }

  lemma WritersStep<T>(s: State<T>, a: Action<T>)
    requires Enabled(s, a) && Writers(s) <= 1
    ensures Writers(Step(s, a)) <= 1 <==> !(a.Enqueue? && s.queue == [] && Writers(s) > 0)
  {
  }

  /** Writers, that is writes under way and threads about to start one, never
      number more than one exactly when no buffer is accepted in the gap after the
      last waiting buffer was taken and before its writer is done. */
  lemma {:induction false} SingleIffSpaced<T>(s: State<T>, actions: seq<Action<T>>)
    requires Runs(s, actions) && Writers(s) <= 1
    ensures Single(s, actions) <==> Spaced(s, actions)
    decreases |actions|
  {
    if actions != [] {
      WritersStep(s, actions[0]);
      hide Step, Enabled, Writers;
      if Writers(Step(s, actions[0])) <= 1 {
        SingleIffSpaced(Step(s, actions[0]), actions[1..]);
      } else {
        SingleStarts(Step(s, actions[0]), actions[1..]);
      }
    }
  }

  lemma SingleStarts<T>(s: State<T>, actions: seq<Action<T>>)
    requires Runs(s, actions)
    ensures Single(s, actions) ==> Writers(s) <= 1
  {
  }

  /** At most one write under way in every state of the run. */
  predicate OneWrite<T>(s: State<T>, actions: seq<Action<T>>)
    requires Runs(s, actions)
    decreases |actions|
  {
    |s.writing| <= 1 && (actions == [] || OneWrite(Step(s, actions[0]), actions[1..]))
  }

  /** Every buffer is taken while no write is under way. */
  predicate TakenAlone<T>(s: State<T>, actions: seq<Action<T>>)
    requires Runs(s, actions)
    decreases |actions|
  {
    actions == [] ||
    ((actions[0].SendNext? && s.queue != [] ==> s.writing == []) && TakenAlone(Step(s, actions[0]), actions[1..]))
  }

  lemma WritingStep<T>(s: State<T>, a: Action<T>)
    requires Enabled(s, a) && |s.writing| <= 1
    ensures |Step(s, a).writing| <= 1 <==> (a.SendNext? && s.queue != [] ==> s.writing == [])
  {
  }

  lemma OneWriteStarts<T>(s: State<T>, actions: seq<Action<T>>)
    requires Runs(s, actions)
    ensures OneWrite(s, actions) ==> |s.writing| <= 1
  {
  }

  /** A given run has at most one write under way throughout exactly when no
      SendNext of it takes a buffer while a write is under way. */
  lemma {:induction false} OneWriteIffTakenAlone<T>(s: State<T>, actions: seq<Action<T>>)
    requires Runs(s, actions) && |s.writing| <= 1
    ensures OneWrite(s, actions) <==> TakenAlone(s, actions)
    decreases |actions|
  {
    if actions != [] {
      WritingStep(s, actions[0]);
      hide Step, Enabled;
      if |Step(s, actions[0]).writing| <= 1 {
        OneWriteIffTakenAlone(Step(s, actions[0]), actions[1..]);
      } else {
        OneWriteStarts(Step(s, actions[0]), actions[1..]);
      }
    }
  }

  // ------------------------------------- when senders alone rule out two writes

  predicate NoEnqueue<T>(actions: seq<Action<T>>) {
    forall i | 0 <= i < |actions| :: !actions[i].Enqueue?
  }

  /** Whatever the threads and the socket do next, without another buffer being
      accepted there will not be two writes under way. */
  ghost predicate Contained<T(!new)>(s: State<T>) {
    forall more | Runs(s, more) && NoEnqueue(more) :: |Exec(s, more).writing| <= 1
  }

  ghost predicate StaysContained<T(!new)>(s: State<T>, actions: seq<Action<T>>)
    requires Runs(s, actions)
    decreases |actions|
  {
    Contained(s) && (actions == [] || StaysContained(Step(s, actions[0]), actions[1..]))
  }

  /** The writes under way and those that can be started without another buffer. */
  function Pressure<T>(s: State<T>): nat {
    |s.writing| + if s.starters < |s.queue| then s.starters else |s.queue|
  }

  /** What a sender must find: an empty queue only when no write is under way, and
      otherwise at most one thread about to take a buffer. */
  predicate Calm<T>(s: State<T>) {
    if s.queue == [] then s.writing == [] else s.starters <= 1
  }

  predicate CalmRun<T>(s: State<T>, actions: seq<Action<T>>)
    requires Runs(s, actions)
    decreases |actions|
  {
    actions == [] || ((actions[0].Enqueue? ==> Calm(s)) && CalmRun(Step(s, actions[0]), actions[1..]))
  }

  lemma PressureStep<T>(s: State<T>, a: Action<T>)
    requires Enabled(s, a)
    ensures !a.Enqueue? ==> Pressure(Step(s, a)) <= Pressure(s)
    ensures a.Enqueue? && Pressure(s) <= 1 ==> (Pressure(Step(s, a)) <= 1 <==> Calm(s))
  {
  }

  lemma {:induction false} PressureFalls<T>(s: State<T>, more: seq<Action<T>>)
    requires Runs(s, more) && NoEnqueue(more)
    ensures Pressure(Exec(s, more)) <= Pressure(s)
    decreases |more|
  {
    hide Step, Enabled, Pressure;
    if more != [] {
      PressureStep(s, more[0]);
      PressureFalls(Step(s, more[0]), more[1..]);
    }
  }

  /** All threads about to take a buffer do so. */
  lemma {:induction false} PressureReached<T>(s: State<T>) returns (more: seq<Action<T>>)
    ensures Runs(s, more) && NoEnqueue(more) && |Exec(s, more).writing| == Pressure(s)
    decreases s.starters
  {
    if s.starters == 0 || s.queue == [] {
      more := [];
    } else {
      var rest := PressureReached(Step(s, SendNext));
      more := [SendNext] + rest;
      assert more[1..] == rest;
    }
  }

  lemma ContainedIffPressure<T(!new)>(s: State<T>)
    ensures Contained(s) <==> Pressure(s) <= 1
  {
    if Pressure(s) <= 1 {
      forall more | Runs(s, more) && NoEnqueue(more) ensures |Exec(s, more).writing| <= 1 {
        PressureFalls(s, more);
      }
    } else {
      var _ := PressureReached(s);
    }
  }

  /** Exactly when the senders rule out two writes at a time, however threads and
      socket behave in between: every buffer is accepted either into an empty queue
      with no write under way, or behind waiting buffers with at most one thread
      about to take one. */
  lemma {:induction false} ContainedIffCalm<T(!new)>(s: State<T>, actions: seq<Action<T>>)
    requires Runs(s, actions) && Pressure(s) <= 1
    ensures StaysContained(s, actions) <==> CalmRun(s, actions)
    decreases |actions|
  {
    ContainedIffPressure(s);
    if actions != [] {
      var t := Step(s, actions[0]);
      PressureStep(s, actions[0]);
      ContainedIffPressure(t);
      hide Step, Enabled, Contained, Pressure, Calm;
      if Pressure(t) <= 1 { ContainedIffCalm(t, actions[1..]); }
    }
  }

  /** In particular such runs have one write at a time. */
  lemma {:induction false} CalmRunsWriteAlone<T>(s: State<T>, actions: seq<Action<T>>)
    requires Runs(s, actions) && Pressure(s) <= 1 && CalmRun(s, actions)
    ensures OneWrite(s, actions)
    decreases |actions|
  {
    if actions != [] {
      PressureStep(s, actions[0]);
      CalmRunsWriteAlone(Step(s, actions[0]), actions[1..]);
    }
  }

  /** Two writes at once: the second buffer is accepted while the first is being
      written and no longer in the queue. */
  lemma TwoWritesExample<T>(a: T, b: T)
    ensures var path := [Enqueue(a), SendNext, Enqueue(b), SendNext];
      Runs(Start<T>(), path) && Exec(Start<T>(), path).writing == [a, b]
  {
    var s0 := Start<T>();
    var s1 := Step(s0, Enqueue(a));
    assert s1.queue == [a] && s1.starters == 1;
    var s2 := Step(s1, SendNext);
    assert s2.queue == [] && s2.starters == 0 && s2.writing == [a];
    var s3 := Step(s2, Enqueue(b));
    assert s3.queue == [b] && s3.starters == 1 && s3.writing == [a];
    var s4 := Step(s3, SendNext);
    assert s4.writing == [a, b];
    assert Runs(s4, []) && Exec(s4, []) == s4;
    hide Step, Runs, Exec;
    Prepend(s3, SendNext, [], s4, s4);
    var p3 := [SendNext] + [];
    Prepend(s2, Enqueue(b), p3, s3, s4);
    var p2 := [Enqueue(b)] + p3;
    Prepend(s1, SendNext, p2, s2, s4);
    var p1 := [SendNext] + p2;
    Prepend(s0, Enqueue(a), p1, s1, s4);
    assert [Enqueue(a), SendNext, Enqueue(b), SendNext] == [Enqueue(a)] + p1;
  }

  lemma Prepend<T>(s: State<T>, a: Action<T>, rest: seq<Action<T>>, t: State<T>, z: State<T>)
    requires Enabled(s, a) && Step(s, a) == t && Runs(t, rest) && Exec(t, rest) == z
    ensures Runs(s, [a] + rest) && Exec(s, [a] + rest) == z
  {
    hide Step, Enabled;
    assert ([a] + rest)[1..] == rest;
  }

  /** With one write at a time buffers reach the wire in order. */
  ghost predicate InOrder<T>(s: State<T>) {
    !s.failed ==> s.written + s.writing == s.taken
  }

  lemma InOrderStep<T>(s: State<T>, a: Action<T>)
    requires InOrder(s) && Enabled(s, a) && |s.writing| <= 1 && |Step(s, a).writing| <= 1
    ensures InOrder(Step(s, a))
  {
    match a
    case Enqueue(_) =>
    case SendNext => if s.queue != [] { assert s.writing == [] && s.written + s.writing == s.written; }
    case Complete(i, error) =>
      assert i == 0 && s.writing == [s.writing[0]];
      assert s.writing[..i] + s.writing[i + 1..] == [];
  }

  lemma {:induction false} InOrderRun<T>(s: State<T>, actions: seq<Action<T>>)
    requires InOrder(s) && Runs(s, actions) && OneWrite(s, actions)
    ensures InOrder(Exec(s, actions)) && |Exec(s, actions).writing| <= 1
    decreases |actions|
  {
    if actions != [] {
      OneWriteStarts(Step(s, actions[0]), actions[1..]);
      InOrderStep(s, actions[0]);
      hide InOrder, Step, Enabled;
      InOrderRun(Step(s, actions[0]), actions[1..]);
    }
  }

  /** In every run with one write at a time and in which none fails, what is on
      the wire is always a prefix of what was accepted, in order, followed by the
      one buffer being written and those still waiting. */
  lemma WrittenInOrder<T>(actions: seq<Action<T>>)
    requires Runs(Start<T>(), actions) && OneWrite(Start<T>(), actions)
    ensures var s := Exec(Start<T>(), actions);
      !s.failed ==> s.written + s.writing + s.queue == s.accepted && |s.writing| <= 1
    ensures Spaced(Start<T>(), actions) ==> Writers(Exec(Start<T>(), actions)) <= 1
  {
    SingleIffSpaced(Start<T>(), actions);
    InOrderRun(Start<T>(), actions);
    RunKeeps(Start<T>(), actions);
    if Spaced(Start<T>(), actions) { SingleEnds(Start<T>(), actions); }
    hide Exec, Runs, Spaced, OneWrite;
  }

  lemma {:induction false} SingleEnds<T>(s: State<T>, actions: seq<Action<T>>)
    requires Runs(s, actions) && Single(s, actions)
    ensures Writers(Exec(s, actions)) <= 1
    decreases |actions|
  {
    hide Writers, Step, Enabled;
    if actions != [] { SingleEnds(Step(s, actions[0]), actions[1..]); }
  }
}

/** From sending to receiving over one connection. */
module Delivery {
  import opened Framing
  import opened OutgoingQueue

  function FramesOf(payloads: seq<Bytes>): seq<Bytes> {
    if payloads == [] then [] else [Frame(payloads[0])] + FramesOf(payloads[1..])
  }

  lemma {:induction false} JoinedFrames(payloads: seq<Bytes>)
    ensures Joined(FramesOf(payloads)) == Frames(payloads)
  {
    if payloads != [] {
      JoinedFrames(payloads[1..]);
      assert FramesOf(payloads)[1..] == FramesOf(payloads[1..]);
    }
  }

  lemma {:induction false} JoinedConcat(a: seq<Bytes>, b: seq<Bytes>)
    ensures Joined(a + b) == Joined(a) + Joined(b)
    decreases |a|
  {
    if a == [] {
      assert a + b == b;
    } else {
      JoinedConcat(a[1..], b);
      assert (a + b)[1..] == a[1..] + b;
    }
  }

  /** End to end: when the frames of some payloads are sent with one write at a
      time and none fails, a receiver fed what has been written, in any chunks,
      has received a prefix of the payloads, in order; once nothing waits or is
      being written it has received them all. */
  lemma DeliveredInOrder(payloads: seq<Bytes>, actions: seq<Action<Bytes>>, chunks: seq<Bytes>)
    requires forall p | p in payloads :: |p| <= 1048576
    requires Runs(OutgoingQueue.Start<Bytes>(), actions) && OneWrite(OutgoingQueue.Start<Bytes>(), actions)
    requires var s := Exec(OutgoingQueue.Start<Bytes>(), actions);
      !s.failed && s.accepted == FramesOf(payloads) && Joined(chunks) == Joined(s.written)
    ensures var s := Exec(OutgoingQueue.Start<Bytes>(), actions);
      && FeedChunks(OPEN, chunks).messages <= payloads
      && (Writers(s) == 0 ==> FeedChunks(OPEN, chunks).messages == payloads)
  {
    var s := Exec(OutgoingQueue.Start<Bytes>(), actions);
    assert Bounded(payloads);
    WrittenInOrder(actions);
    hide Runs, Exec, Spaced, OneWrite, FeedChunks, Frame, Bounded;
    var rest := s.writing + s.queue;
    assert s.written + s.writing + s.queue == s.written + rest;
    assert Writers(s) == 0 ==> s.writing == [];
    hide Joined, FramesOf, Frames;
    PrefixReceived(payloads, s.written, rest, chunks);
    if Writers(s) == 0 {
      QuietQueue(actions);
      AllReceived(s, payloads, chunks);
    }
  }

  lemma PrefixReceived(payloads: seq<Bytes>, written: seq<Bytes>, rest: seq<Bytes>, chunks: seq<Bytes>)
    requires Bounded(payloads)
    requires written + rest == FramesOf(payloads) && Joined(chunks) == Joined(written)
    ensures FeedChunks(OPEN, chunks).messages <= payloads
  {
    assert forall p | p in payloads :: |p| <= 1048576;
    hide Joined, FramesOf, Frames, FeedChunks, Bounded;
    JoinedConcat(written, rest);
    JoinedFrames(payloads);
    ReceivedIsPrefix(payloads, chunks, Joined(rest));
  }

  /** With no writer left nothing waits, so all frames have been written. */
  lemma AllReceived(s: State<Bytes>, payloads: seq<Bytes>, chunks: seq<Bytes>)
    requires Bounded(payloads)
    requires s.written + s.writing + s.queue == s.accepted == FramesOf(payloads)
    requires s.writing == [] && s.queue == [] && Joined(chunks) == Joined(s.written)
    ensures FeedChunks(OPEN, chunks).messages == payloads
  {
    assert forall p | p in payloads :: |p| <= 1048576;
    hide Joined, FramesOf, Frames, FeedChunks, Bounded;
    assert s.written + s.writing + s.queue == s.written;
    JoinedFrames(payloads);
    RoundTripIffBounded(payloads, chunks);
  }
}
