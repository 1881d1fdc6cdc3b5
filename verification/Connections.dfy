/** A connection and the message processor, field by field: each method is one
    locked section or one completion handler. */
module Connections {
  import opened Sequences
  import opened Framing
  import Out = OutgoingQueue
  import In = MessageProcessor

  class BoostTcpConnection {
    // outgoing_bytes_, and the buffer whose header or body is being read
    var outgoing: seq<Bytes>
    var incomingLength: nat
    var incoming: Bytes
    var readingBody: bool
    var open: bool
    // what the owner of the connection has received
    var received: seq<Bytes>
    ghost var progress: Out.State<Bytes>

    constructor ()
      ensures Queue() == Out.Start<Bytes>() && Reader() == OPEN
    {
      outgoing, incomingLength, incoming, readingBody, open, received := [], 0, [], false, true, [];
      progress := Out.Start<Bytes>();
    }

    ghost function Queue(): Out.State<Bytes>
      reads this
    {
      progress.(queue := outgoing)
    }

    ghost function Reader(): Incoming
      reads this
    {
      Incoming(if !open then Closed else if readingBody then Body(incomingLength, incoming) else Header(incoming), received)
    }

    /** Append the frame; whoever finds the queue empty starts writing. */
    method SendBytes(bytes: Bytes) returns (start: bool)
      modifies this`outgoing, this`progress
      ensures Queue() == Out.Step(old(Queue()), Out.Enqueue(Frame(bytes)))
      ensures start <==> old(Queue()).starters < Queue().starters
    {
      ghost var s := Out.Step(Queue(), Out.Enqueue(Frame(bytes)));
      var buffer := NetworkOrder(|bytes| % TWO_32) + bytes;
      outgoing := outgoing + [buffer];
      start := !(|outgoing| > 1);
      progress := s;
    }

    /** Take the next buffer for writing, if there is one. */
    method SendNext() returns (buffer: Option<Bytes>)
      requires Out.Enabled(Queue(), Out.SendNext)
      modifies this`outgoing, this`progress
      ensures Queue() == Out.Step(old(Queue()), Out.SendNext)
      ensures buffer == if old(outgoing) == [] then None else Some(old(outgoing)[0])
    {
      ghost var s := Out.Step(Queue(), Out.SendNext);
      buffer := None;
      if outgoing != [] {
        buffer := Some(outgoing[0]);
        outgoing := outgoing[1..];
      }
      progress := s;
    }

    /** The body is complete: hand it over and wait for the next header. */
    method OnBody()
      requires open && readingBody && |incoming| == incomingLength
      modifies this`readingBody, this`incoming, this`received
      ensures Reader() == Settle(old(Reader()))
    {
      received := received + [incoming];
      readingBody, incoming := false, [];
    }

    /** The header is complete: refuse it or wait for the body it announces. */
    method OnHeader()
      requires open && !readingBody && |incoming| == HEADER_SIZE
      modifies this`readingBody, this`incoming, this`incomingLength, this`received, this`open
      ensures Reader() == HeaderRead(old(Reader()).(stage := Header([])), old(incoming))
      ensures !readingBody || |incoming| < incomingLength
    {
      var length := HostOrder(incoming);
      if length > MAX_MESSAGE_BYTES {
        open := false;
        readingBody := false;
      } else {
        readingBody, incomingLength, incoming := true, length, [];
        if length == 0 { OnBody(); }
      }
    }

    /** Bytes arrive in chunks of any size; header and body are filled in turn. */
    method Receive(chunk: Bytes)
      requires Reading(Reader())
      modifies this`readingBody, this`incoming, this`incomingLength, this`received, this`open
      ensures Reading(Reader()) && Reader() == FeedAll(old(Reader()), chunk)
    {
      var i := 0;
      assert chunk[..0] == [];
      while i < |chunk| && open
        invariant 0 <= i <= |chunk|
        invariant Reading(Reader())
        invariant Reader() == FeedAll(old(Reader()), chunk[..i])
      {
        i := Fill(old(Reader()), chunk, i);
      }
      if i < |chunk| { ClosedStays(Reader(), chunk[i..]); }
      FeedConcat(old(Reader()), chunk[..i], chunk[i..]);
      assert chunk[..i] + chunk[i..] == chunk;
    }

    /** Take as much of the chunk as the header or body being read still needs. */
    method Fill(ghost before: Incoming, chunk: Bytes, i: nat) returns (next: nat)
      requires i < |chunk| && open && Reading(Reader())
      requires Reader() == FeedAll(before, chunk[..i])
      modifies this`readingBody, this`incoming, this`incomingLength, this`received, this`open
      ensures i < next <= |chunk| && Reading(Reader())
      ensures Reader() == FeedAll(before, chunk[..next])
    {
      ghost var s := Reader();
      var needed := (if readingBody then incomingLength else HEADER_SIZE) - |incoming|;
      next := if i + needed < |chunk| then i + needed else |chunk|;
      var part := chunk[i..next];
      FillStage(before, s, chunk, i, next);
      incoming := incoming + part;
      hide FeedAll, HostOrder;
      if |part| == needed {
        if readingBody { OnBody(); } else { OnHeader(); }
      }
    }
  }

  /** What the next part of a chunk does to the reader. */
  lemma FillStage(before: Incoming, s: Incoming, chunk: Bytes, i: nat, next: nat)
    requires i < next <= |chunk| && s == FeedAll(before, chunk[..i])
    requires Reading(s) && !s.stage.Closed?
    requires |s.stage.got| + (next - i) <= if s.stage.Body? then s.stage.length else HEADER_SIZE
    ensures var got := s.stage.got + chunk[i..next];
      FeedAll(before, chunk[..next]) ==
        if s.stage.Body? then Settle(s.(stage := Body(s.stage.length, got)))
        else if |got| == HEADER_SIZE then HeaderRead(s, got)
        else s.(stage := Header(got))
  {
    hide FeedAll;
    var part := chunk[i..next];
    FeedConcat(before, chunk[..i], part);
    assert chunk[..i] + part == chunk[..next];
    if s.stage.Body? { FillBody(s, part); } else { FillHeader(s, part); }
  }

  class TcpMessageProcessor {
    const types: set<nat>
    var tasks: seq<In.Message>
    var batch: seq<In.Message>
    var stopped: bool
    var handled: seq<In.Message>
    ghost var accepted: seq<In.Message>

    constructor (types: set<nat>)
      ensures View() == In.Start(types)
    {
      this.types := types;
      tasks, batch, stopped, handled, accepted := [], [], false, [], [];
    }

    ghost function View(): In.State
      reads this
    {
      In.State(types, tasks, batch, stopped, accepted, handled)
    }

    method Enqueue(envelope: Option<In.Message>)
      modifies this`tasks, this`accepted
      ensures View() == In.Step(old(View()), In.Enqueue(envelope))
    {
      if envelope.None? { return; }
      if envelope.value.messageType !in types { return; }
      if stopped { return; }
      tasks := tasks + [envelope.value];
      accepted := accepted + [envelope.value];
    }

    method Stop()
      modifies this`stopped
      ensures View() == In.Step(old(View()), In.Stop)
    {
      stopped := true;
    }

    /** Swap and drain, when nothing else happens in between: every message of
        the queue is handled, in order, and the queue is empty. */
    method ProcessBlocking()
      requires batch == [] && (stopped || tasks != [])
      modifies this`tasks, this`batch, this`handled
      ensures old(stopped) ==> View() == old(View())
      ensures !old(stopped) ==>
                In.Runs(old(View()), Drain(|old(tasks)|)) && View() == In.Exec(old(View()), Drain(|old(tasks)|))
      ensures !old(stopped) ==> handled == old(handled) + old(tasks) && tasks == [] && batch == []
    {
      if stopped { return; }
      batch, tasks := tasks, [];
      ghost var taken := batch;
      while batch != []
        invariant tasks == [] && handled + batch == old(handled) + taken
      {
        handled := handled + [batch[0]];
        batch := batch[1..];
      }
      DrainHandles(old(View()));
    }
  }

  /** One swap, then one handling per message of the batch. */
  function Drain(n: nat): seq<In.Action> {
    [In.Swap] + Handles(n)
  }

  function Handles(n: nat): seq<In.Action> {
    if n == 0 then [] else [In.Handle] + Handles(n - 1)
  }

  lemma {:induction false} HandlesAll(s: In.State)
    ensures In.Runs(s, Handles(|s.batch|))
    ensures In.Exec(s, Handles(|s.batch|)) == s.(batch := [], handled := s.handled + s.batch)
    decreases |s.batch|
  {
    if s.batch == [] {
      assert s.handled + s.batch == s.handled;
    } else {
      var t := In.Step(s, In.Handle);
      HandlesAll(t);
      assert Handles(|s.batch|)[1..] == Handles(|t.batch|);
      assert t.handled + t.batch == s.handled + s.batch;
    }
  }

  lemma DrainHandles(s: In.State)
    requires s.batch == [] && s.tasks != [] && !s.stopped
    ensures In.Runs(s, Drain(|s.tasks|))
    ensures In.Exec(s, Drain(|s.tasks|)) == s.(tasks := [], batch := [], handled := s.handled + s.tasks)
  {
    var t := In.Step(s, In.Swap);
    HandlesAll(t);
    assert Drain(|s.tasks|)[1..] == Handles(|t.batch|);
  }
}
