/** The load tester's bookkeeping: what a client has sent and what of it came
    back, and the totals over all clients. */
module LoadReports {
  import opened Sequences

  const TWO_64: nat := 0x1_0000_0000_0000_0000

  /** Unsigned 64-bit arithmetic. */
  function Wrap(n: int): (r: nat)
    ensures r < TWO_64
  {
    n % TWO_64
  }

  lemma WrapNothing(n: nat)
    requires n < TWO_64
    ensures Wrap(n) == n
  {
  }

  datatype Event =
    | Sent(id: nat, at: int)
    | Received(connection: nat, channel: nat, user: nat, id: nat, at: int)

  /** Who a client is; only its own messages on its own channel count. */
  datatype Identity = Identity(connection: nat, channel: nat, user: nat)

  datatype ClientReport = ClientReport(roundtripTimes: seq<int>, sentCount: nat)

  function CompletedCount(r: ClientReport): nat {
    |r.roundtripTimes|
  }

  /** Unsigned subtraction in 64 bits. */
  function FailedCount(r: ClientReport): nat {
    Wrap(r.sentCount - CompletedCount(r))
  }

  // ------------------------------------------------------------ reference trace

  predicate IsEcho(me: Identity, e: Event, id: nat) {
    e.Received? && e.connection == me.connection && e.channel == me.channel && e.user == me.user && e.id == id
  }

  function SentAt(trace: seq<Event>, id: nat): Option<int> {
    if trace == [] then None
    else
      var before := SentAt(trace[..|trace| - 1], id);
      var e := trace[|trace| - 1];
      if before.Some? then before
      else if e.Sent? && e.id == id then Some(e.at)
      else None
  }

  /** When the first echo of a message came. */
  function EchoAt(me: Identity, trace: seq<Event>, id: nat): Option<int> {
    if trace == [] then None
    else
      var before := EchoAt(me, trace[..|trace| - 1], id);
      var e := trace[|trace| - 1];
      if before.Some? then before
      else if IsEcho(me, e, id) then Some(e.at)
      else None
  }

  lemma {:induction false} EchoedIffSeen(me: Identity, trace: seq<Event>, id: nat)
    ensures EchoAt(me, trace, id).Some? <==> exists i :: 0 <= i < |trace| && IsEcho(me, trace[i], id)
  {
    if trace != [] {
      var front := trace[..|trace| - 1];
      EchoedIffSeen(me, front, id);
      forall i | 0 <= i < |front| ensures front[i] == trace[i] {}
    }
  }

  lemma {:induction false} SentIffSeen(trace: seq<Event>, id: nat)
    ensures SentAt(trace, id).Some? <==> exists i :: 0 <= i < |trace| && trace[i].Sent? && trace[i].id == id
  {
    if trace != [] {
      var front := trace[..|trace| - 1];
      SentIffSeen(front, id);
      forall i | 0 <= i < |front| ensures front[i] == trace[i] {}
    }
  }

  /** The tables say what the trace says. */
  ghost predicate TablesOf(me: Identity, trace: seq<Event>, outgoing: map<nat, int>, incoming: map<nat, int>) {
    && (forall id :: id in outgoing <==> SentAt(trace, id).Some?)
    && (forall id | id in outgoing :: outgoing[id] == SentAt(trace, id).value)
    && (forall id :: id in incoming <==> EchoAt(me, trace, id).Some?)
    && (forall id | id in incoming :: incoming[id] == EchoAt(me, trace, id).value)
  }

  /** The ids of the messages sent. */
  function SentIds(trace: seq<Event>): set<nat> {
    set e | e in trace && e.Sent? :: e.id
  }

  predicate IsEchoed(me: Identity, trace: seq<Event>, id: nat) {
    exists e | e in trace :: e.Received? && e == Received(me.connection, me.channel, me.user, id, e.at)
  }

  // ------------------------------------------------------------------- a client

  class TestClient {
    const me: Identity
    var outgoing: map<nat, int>
    var incoming: map<nat, int>
    ghost var trace: seq<Event>

    constructor (me: Identity)
      ensures Valid() && trace == [] && this.me == me
    {
      this.me := me;
      outgoing, incoming, trace := map[], map[], [];
    }

    ghost predicate Valid()
      reads this
    {
      TablesOf(me, trace, outgoing, incoming)
    }

    method Send(id: nat, now: int)
      requires Valid()
      modifies this`outgoing, this`trace
      ensures Valid() && trace == old(trace) + [Sent(id, now)]
    {
      if id !in outgoing { outgoing := outgoing[id := now]; }
      trace := trace + [Sent(id, now)];
    }

    method Receive(connection: nat, channel: nat, user: nat, id: nat, now: int)
      requires Valid()
      modifies this`incoming, this`trace
      ensures Valid() && trace == old(trace) + [Received(connection, channel, user, id, now)]
    {
      trace := trace + [Received(connection, channel, user, id, now)];
      if me.connection != connection { return; }
      if channel != me.channel { return; }
      if user != me.user { return; }
      if id !in incoming { incoming := incoming[id := now]; }
    }

    /** Match what was sent with what came back, over the table of sent messages
        in its storage order. */
    method Evaluate(order: seq<nat>) returns (report: ClientReport)
      requires Valid() && Lists(order, outgoing.Keys)
      ensures report == ClientReport(Roundtrips(order, outgoing, incoming), |outgoing|)
      ensures |outgoing| < TWO_64 ==>
                CompletedCount(report) == |Answered(me, trace)| && FailedCount(report) == |Unanswered(me, trace)|
      ensures TimesOf(me, trace, order, report.roundtripTimes)
    {
      var times: seq<int> := [];
      for i := 0 to |order|
        invariant times == Roundtrips(order[..i], outgoing, incoming)
      {
        assert order[..i + 1][..i] == order[..i];
        if order[i] in incoming { times := times + [incoming[order[i]] - outgoing[order[i]]]; }
      }
      assert order[..|order|] == order;
      report := ClientReport(times, |outgoing|);
      if |outgoing| < TWO_64 { ReportOfTrace(me, trace, order, outgoing, incoming, report); }
      TimesOfTrace(me, trace, order, outgoing, incoming);
      hide TimesOf, CompletedCount, FailedCount, Answered, Unanswered, TablesOf, Lists, Roundtrips;
    }
  }

  ghost predicate Lists(order: seq<nat>, ids: set<nat>) {
    && (forall i, j | 0 <= i < j < |order| :: order[i] != order[j])
    && (forall id :: id in order <==> id in ids)
  }

  function Roundtrips(order: seq<nat>, outgoing: map<nat, int>, incoming: map<nat, int>): seq<int>
    requires forall id | id in order :: id in outgoing
  {
    if order == [] then []
    else
      var id := order[|order| - 1];
      Roundtrips(order[..|order| - 1], outgoing, incoming) + if id in incoming then [incoming[id] - outgoing[id]] else []
  }

  function Matched(order: seq<nat>, incoming: map<nat, int>): set<nat> {
    set id | id in order && id in incoming
  }

  lemma {:induction false} RoundtripCount(order: seq<nat>, outgoing: map<nat, int>, incoming: map<nat, int>)
    requires forall id | id in order :: id in outgoing
    requires forall i, j | 0 <= i < j < |order| :: order[i] != order[j]
    ensures |Roundtrips(order, outgoing, incoming)| == |Matched(order, incoming)|
  {
    if order != [] {
      var front, id := order[..|order| - 1], order[|order| - 1];
      RoundtripCount(front, outgoing, incoming);
      MatchedLast(order, incoming);
      hide Matched;
    }
  }

  lemma MatchedLast(order: seq<nat>, incoming: map<nat, int>)
    requires order != [] && forall i, j | 0 <= i < j < |order| :: order[i] != order[j]
    ensures var front, id := order[..|order| - 1], order[|order| - 1];
      && id !in Matched(front, incoming)
      && Matched(order, incoming) == Matched(front, incoming) + if id in incoming then {id} else {}
  {
    assert order == order[..|order| - 1] + [order[|order| - 1]];
  }

  /** Messages sent and echoed, and sent and not echoed. */
  function Echoed(outgoing: map<nat, int>, incoming: map<nat, int>): set<nat> {
    outgoing.Keys * incoming.Keys
  }

  function Lost(outgoing: map<nat, int>, incoming: map<nat, int>): set<nat> {
    outgoing.Keys - incoming.Keys
  }

  lemma KeysSplit(outgoing: map<nat, int>, incoming: map<nat, int>)
    ensures |outgoing| == |Echoed(outgoing, incoming)| + |Lost(outgoing, incoming)|
  {
    assert outgoing.Keys == Echoed(outgoing, incoming) + Lost(outgoing, incoming);
    assert |outgoing| == |outgoing.Keys|;
  }

  lemma MatchedKeys(order: seq<nat>, outgoing: map<nat, int>, incoming: map<nat, int>)
    requires Lists(order, outgoing.Keys)
    ensures Matched(order, incoming) == Echoed(outgoing, incoming)
  {
  }

  lemma CompletedExactly(order: seq<nat>, outgoing: map<nat, int>, incoming: map<nat, int>)
    requires Lists(order, outgoing.Keys)
    ensures |Roundtrips(order, outgoing, incoming)| == |Echoed(outgoing, incoming)|
  {
    RoundtripCount(order, outgoing, incoming);
    MatchedKeys(order, outgoing, incoming);
  }

  lemma FailedExactly(r: ClientReport, lost: nat)
    requires r.sentCount == |r.roundtripTimes| + lost && r.sentCount < TWO_64
    ensures FailedCount(r) == lost && Sound(r)
  {
  }

  /** Whatever order the table is read in: exactly the messages sent and echoed
      are completed, exactly those sent and not echoed have failed, and the
      unsigned difference does not wrap. */
  lemma ReportIsExact(order: seq<nat>, outgoing: map<nat, int>, incoming: map<nat, int>, r: ClientReport)
    requires Lists(order, outgoing.Keys) && |outgoing| < TWO_64
    requires r == ClientReport(Roundtrips(order, outgoing, incoming), |outgoing|)
    ensures CompletedCount(r) == |Echoed(outgoing, incoming)| && FailedCount(r) == |Lost(outgoing, incoming)|
    ensures CompletedCount(r) + FailedCount(r) == r.sentCount && Sound(r)
  {
    assert CompletedCount(r) == |r.roundtripTimes|;
    hide *;
    CompletedExactly(order, outgoing, incoming);
    KeysSplit(outgoing, incoming);
    FailedExactly(r, |Lost(outgoing, incoming)|);
  }

  /** The tables' keys are the ids the trace shows as sent, and as echoed. */
  lemma KeysOfTrace(me: Identity, trace: seq<Event>, outgoing: map<nat, int>, incoming: map<nat, int>)
    requires TablesOf(me, trace, outgoing, incoming)
    ensures outgoing.Keys == SentIds(trace)
    ensures forall id :: id in incoming <==> IsEchoed(me, trace, id)
  {
    forall id ensures id in outgoing <==> id in SentIds(trace) {
      SentIffSeen(trace, id);
      assert id in SentIds(trace) <==> exists i :: 0 <= i < |trace| && trace[i].Sent? && trace[i].id == id;
    }
    forall id ensures id in incoming <==> IsEchoed(me, trace, id) {
      EchoedIffSeen(me, trace, id);
    }
  }

  /** The messages sent of which some echo was received, and those of which none. */
  function Answered(me: Identity, trace: seq<Event>): set<nat> {
    set id | id in SentIds(trace) && IsEchoed(me, trace, id)
  }

  function Unanswered(me: Identity, trace: seq<Event>): set<nat> {
    set id | id in SentIds(trace) && !IsEchoed(me, trace, id)
  }

  lemma SetsOfTrace(me: Identity, trace: seq<Event>, outgoing: map<nat, int>, incoming: map<nat, int>)
    requires TablesOf(me, trace, outgoing, incoming)
    ensures Echoed(outgoing, incoming) == Answered(me, trace) && Lost(outgoing, incoming) == Unanswered(me, trace)
    ensures |outgoing| == |SentIds(trace)|
  {
    KeysOfTrace(me, trace, outgoing, incoming);
    hide TablesOf, SentIds, IsEchoed;
    assert |outgoing| == |outgoing.Keys|;
  }

  /** The report over the trace of the client: completed are the messages sent of
      which some echo was received, on the client's own connection, channel and
      user, failed are those sent of which none was, each counted once. */
  lemma ReportOfTrace(me: Identity, trace: seq<Event>, order: seq<nat>, outgoing: map<nat, int>, incoming: map<nat, int>,
                      r: ClientReport)
    requires TablesOf(me, trace, outgoing, incoming) && Lists(order, outgoing.Keys) && |outgoing| < TWO_64
    requires r == ClientReport(Roundtrips(order, outgoing, incoming), |outgoing|)
    ensures CompletedCount(r) == |Answered(me, trace)| && FailedCount(r) == |Unanswered(me, trace)|
    ensures r.sentCount == |SentIds(trace)|
  {
    hide *;
    SetsOfTrace(me, trace, outgoing, incoming);
    ReportIsExact(order, outgoing, incoming, r);
  }

  // The times of the report, read off the trace.

  predicate FirstSend(trace: seq<Event>, id: nat, i: nat) {
    && i < |trace| && trace[i].Sent? && trace[i].id == id
    && forall k | 0 <= k < i :: !(trace[k].Sent? && trace[k].id == id)
  }

  predicate FirstEcho(me: Identity, trace: seq<Event>, id: nat, j: nat) {
    && j < |trace| && trace[j].Received? && trace[j] == Received(me.connection, me.channel, me.user, id, trace[j].at)
    && forall k | 0 <= k < j :: trace[k].Received? ==> trace[k] != Received(me.connection, me.channel, me.user, id, trace[k].at)
  }

  /** The time from the first sending of the message to its first echo. */
  ghost predicate IsRoundtrip(me: Identity, trace: seq<Event>, id: nat, time: int) {
    exists i: nat, j: nat :: FirstSend(trace, id, i) && FirstEcho(me, trace, id, j) && time == trace[j].at - trace[i].at
  }

  /** The answered messages, in the order in which the table lists them. */
  function AnsweredInOrder(me: Identity, trace: seq<Event>, order: seq<nat>): seq<nat> {
    if order == [] then []
    else
      var id := order[|order| - 1];
      AnsweredInOrder(me, trace, order[..|order| - 1]) + if IsEchoed(me, trace, id) then [id] else []
  }

  /** One time for each answered message, in order. */
  ghost predicate TimesOf(me: Identity, trace: seq<Event>, order: seq<nat>, times: seq<int>) {
    var ids := AnsweredInOrder(me, trace, order);
    |times| == |ids| && forall k | 0 <= k < |ids| :: IsRoundtrip(me, trace, ids[k], times[k])
  }

  lemma {:induction false} SentAtFirst(trace: seq<Event>, id: nat) returns (i: nat)
    requires SentAt(trace, id).Some?
    ensures FirstSend(trace, id, i) && trace[i].at == SentAt(trace, id).value
  {
    var front := trace[..|trace| - 1];
    if SentAt(front, id).Some? {
      i := SentAtFirst(front, id);
    } else {
      SentIffSeen(front, id);
      i := |front|;
      assert forall k | 0 <= k < |front| :: front[k] == trace[k];
    }
  }

  lemma {:induction false} EchoAtFirst(me: Identity, trace: seq<Event>, id: nat) returns (j: nat)
    requires EchoAt(me, trace, id).Some?
    ensures FirstEcho(me, trace, id, j) && trace[j].at == EchoAt(me, trace, id).value
  {
    var front := trace[..|trace| - 1];
    if EchoAt(me, front, id).Some? {
      j := EchoAtFirst(me, front, id);
    } else {
      EchoedIffSeen(me, front, id);
      j := |front|;
      assert forall k | 0 <= k < |front| :: front[k] == trace[k];
    }
  }

  /** Whatever order the table is read in, the report holds, for each answered
      message in that order, the time from its first sending to its first echo. */
  lemma {:induction false} TimesOfTrace(me: Identity, trace: seq<Event>, order: seq<nat>, outgoing: map<nat, int>, incoming: map<nat, int>)
    requires TablesOf(me, trace, outgoing, incoming) && forall id | id in order :: id in outgoing
    ensures TimesOf(me, trace, order, Roundtrips(order, outgoing, incoming))
  {
    if order != [] {
      var front, id := order[..|order| - 1], order[|order| - 1];
      TimesOfTrace(me, trace, front, outgoing, incoming);
      KeysOfTrace(me, trace, outgoing, incoming);
      if id in incoming { RoundtripOf(me, trace, id, outgoing, incoming); }
      hide IsRoundtrip, TablesOf, SentIds, IsEchoed;
    }
  }

  lemma RoundtripOf(me: Identity, trace: seq<Event>, id: nat, outgoing: map<nat, int>, incoming: map<nat, int>)
    requires TablesOf(me, trace, outgoing, incoming) && id in outgoing && id in incoming
    ensures IsRoundtrip(me, trace, id, incoming[id] - outgoing[id])
  {
    var i := SentAtFirst(trace, id);
    var j := EchoAtFirst(me, trace, id);
    hide SentAt, EchoAt;
  }

  // ------------------------------------------------------------------ all clients

  datatype Totals = Totals(sent: nat, failed: nat, latencies: seq<int>)

  /** No report claims more answers than messages. */
  predicate Sound(r: ClientReport) {
    CompletedCount(r) <= r.sentCount < TWO_64
  }

  function SentSum(reports: seq<ClientReport>): nat {
    if reports == [] then 0 else SentSum(reports[..|reports| - 1]) + reports[|reports| - 1].sentCount
  }

  function Latencies(reports: seq<ClientReport>): seq<int> {
    if reports == [] then [] else Latencies(reports[..|reports| - 1]) + reports[|reports| - 1].roundtripTimes
  }

  function FailedSum(reports: seq<ClientReport>): nat {
    if reports == [] then 0 else FailedSum(reports[..|reports| - 1]) + FailedCount(reports[|reports| - 1])
  }

  // What the three sums are: nothing for no reports, the report's own count or times
  // for one, and the sum or the times in order for two lists of reports.

  lemma {:induction false} SumsOfParts(a: seq<ClientReport>, b: seq<ClientReport>)
    ensures SentSum(a + b) == SentSum(a) + SentSum(b)
    ensures FailedSum(a + b) == FailedSum(a) + FailedSum(b)
    ensures Latencies(a + b) == Latencies(a) + Latencies(b)
    decreases |b|
  {
    hide FailedCount;
    if b == [] {
      assert a + b == a;
    } else {
      var front := b[..|b| - 1];
      SumsOfParts(a, front);
      assert (a + b)[..|a + b| - 1] == a + front && (a + b)[|a + b| - 1] == b[|b| - 1];
      SumsLast(b);
      SumsLast(a + b);
      hide SentSum, FailedSum, Latencies, FailedCount;
      assert Latencies(a) + Latencies(front) + b[|b| - 1].roundtripTimes == Latencies(a) + (Latencies(front) + b[|b| - 1].roundtripTimes);
    }
  }

  lemma SumsLast(reports: seq<ClientReport>)
    requires reports != []
    ensures var front, last := reports[..|reports| - 1], reports[|reports| - 1];
      && SentSum(reports) == SentSum(front) + last.sentCount
      && FailedSum(reports) == FailedSum(front) + FailedCount(last)
      && Latencies(reports) == Latencies(front) + last.roundtripTimes
  {
  }

  lemma SumsOfOne(r: ClientReport)
    ensures SentSum([]) == 0 && FailedSum([]) == 0 && Latencies([]) == []
    ensures SentSum([r]) == r.sentCount && Latencies([r]) == r.roundtripTimes
    ensures FailedSum([r]) == (r.sentCount - |r.roundtripTimes|) % 0x1_0000_0000_0000_0000
  {
    assert [r][..0] == [];
  }

  /** Every latency of every report is among the totals, in its place. */
  lemma {:induction false} LatencyAt(reports: seq<ClientReport>, i: nat, k: nat)
    requires i < |reports| && k < |reports[i].roundtripTimes|
    ensures |Latencies(reports[..i])| + k < |Latencies(reports)|
    ensures Latencies(reports)[|Latencies(reports[..i])| + k] == reports[i].roundtripTimes[k]
  {
    assert reports == reports[..i] + ([reports[i]] + reports[i + 1..]);
    SumsOfParts(reports[..i], [reports[i]] + reports[i + 1..]);
    SumsOfParts([reports[i]], reports[i + 1..]);
    SumsOfOne(reports[i]);
    hide Latencies;
  }

  /** The totals, in unsigned 64-bit arithmetic. */
  method Evaluate(reports: seq<ClientReport>) returns (t: Totals)
    ensures t == Totals(Wrap(SentSum(reports)), Wrap(FailedSum(reports)), Latencies(reports))
  {
    WrapNothing(0);
    var sent, failed := 0, 0;
    var latencies: seq<int> := [];
    for i := 0 to |reports|
      invariant sent == Wrap(SentSum(reports[..i]))
      invariant failed == Wrap(FailedSum(reports[..i]))
      invariant latencies == Latencies(reports[..i])
    {
      assert reports[..i + 1][..i] == reports[..i];
      WrapAdd(SentSum(reports[..i]), reports[i].sentCount);
      WrapAdd(FailedSum(reports[..i]), FailedCount(reports[i]));
      hide Wrap, FailedCount;
      sent := Wrap(sent + reports[i].sentCount);
      failed := Wrap(failed + FailedCount(reports[i]));
      latencies := latencies + reports[i].roundtripTimes;
    }
    assert reports[..|reports|] == reports;
    t := Totals(sent, failed, latencies);
  }

  lemma WrapAdd(a: nat, b: nat)
    ensures Wrap(Wrap(a) + b) == Wrap(a + b)
  {
  }

  lemma {:induction false} SumsBalance(reports: seq<ClientReport>)
    requires forall i | 0 <= i < |reports| :: Sound(reports[i])
    ensures SentSum(reports) == |Latencies(reports)| + FailedSum(reports)
  {
    hide Wrap;
    if reports != [] {
      SumsBalance(reports[..|reports| - 1]);
      var r := reports[|reports| - 1];
      assert Sound(r);
      WrapNothing(r.sentCount - CompletedCount(r));
    }
  }

  lemma WrapIs(n: nat)
    ensures Wrap(n) == n % 0x1_0000_0000_0000_0000 < 0x1_0000_0000_0000_0000
    ensures Wrap(n) == n <==> n < 0x1_0000_0000_0000_0000
  {
  }

  lemma WrapBalance(l: nat, f: nat)
    ensures Wrap(l + f) == (l + Wrap(f)) % 0x1_0000_0000_0000_0000
    ensures Wrap(l + f) == l + Wrap(f) <==> l + Wrap(f) < 0x1_0000_0000_0000_0000
  {
    WrapAdd(f, l);
    WrapIs(l + Wrap(f));
    hide Wrap;
  }

  /** Everything sent is accounted for. The printed totals satisfy sent ==
      completed + failed exactly when that sum fits in 64 bits, and up to
      wrap-around always. */
  lemma TotalsBalance(reports: seq<ClientReport>, t: Totals)
    requires forall i | 0 <= i < |reports| :: Sound(reports[i])
    requires t == Totals(Wrap(SentSum(reports)), Wrap(FailedSum(reports)), Latencies(reports))
    ensures t.sent == (|t.latencies| + t.failed) % 0x1_0000_0000_0000_0000
    ensures t.sent == |t.latencies| + t.failed <==> |t.latencies| + t.failed < 0x1_0000_0000_0000_0000
  {
    hide *;
    SumsBalance(reports);
    WrapBalance(|t.latencies|, FailedSum(reports));
  }
}
