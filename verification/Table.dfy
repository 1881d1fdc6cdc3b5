/** The message table of the database, kept in primary-key order, and the one
    query the server runs against it. The same query, run over everything
    written so far, is the specification of a history read. */
module Table {
  import opened Sequences

  datatype Message = Message(id: nat, channelId: nat, userId: nat, content: string)

  /** The greatest value of the 32-bit id type; the server passes it as "no bound". */
  const MAX_ID: nat := 0xFFFF_FFFF

  function Ids(rows: seq<Message>): (r: seq<nat>)
    ensures |r| == |rows|
    ensures forall i | 0 <= i < |r| :: r[i] == rows[i].id
  {
    seq(|rows|, i requires 0 <= i < |rows| => rows[i].id)
  }

  /** Rows in primary-key order, so no key occurs twice. */
  predicate Ordered(rows: seq<Message>) {
    forall i, j | 0 <= i < j < |rows| :: rows[i].id < rows[j].id
  }

  /** WHERE channel_id = ch */
  function Channel(rows: seq<Message>, ch: nat): (r: seq<Message>)
    ensures |r| <= |rows|
  {
    if rows == [] then []
    else
      var front, last := rows[..|rows| - 1], rows[|rows| - 1];
      Channel(front, ch) + if last.channelId == ch then [last] else []
  }

  /** WHERE id < bound */
  function Below(rows: seq<Message>, bound: nat): (r: seq<Message>)
    ensures |r| <= |rows|
  {
    if rows == [] then []
    else
      var front, last := rows[..|rows| - 1], rows[|rows| - 1];
      Below(front, bound) + if last.id < bound then [last] else []
  }

  /** The rows of a channel with an id below the bound: at most `limit` of
      them, the ones with the greatest ids, in ascending order. */
  function Query(rows: seq<Message>, ch: nat, bound: nat, limit: nat): seq<Message> {
    LastN(Below(Channel(rows, ch), bound), limit)
  }

  /** INSERT of one row: refused when the primary key is taken. */
  function InsertRow(rows: seq<Message>, m: Message): Option<seq<Message>> {
    if rows == [] || rows[|rows| - 1].id < m.id then Some(rows + [m])
    else if rows[|rows| - 1].id == m.id then None
    else
      match InsertRow(rows[..|rows| - 1], m)
      case None => None
      case Some(front) => Some(front + [rows[|rows| - 1]])
  }

  /** One transaction: all rows are inserted, or none when one is refused. */
  function InsertRows(rows: seq<Message>, batch: seq<Message>): Option<seq<Message>> {
    if batch == [] then Some(rows)
    else
      match InsertRows(rows, batch[..|batch| - 1])
      case None => None
      case Some(front) => InsertRow(front, batch[|batch| - 1])
  }

  // ---------------------------------------------------------------- inserts

  lemma {:induction false} InsertRowRefuses(rows: seq<Message>, m: Message)
    requires Ordered(rows)
    ensures InsertRow(rows, m).None? <==> m.id in Ids(rows)
  {
    if rows != [] {
      var n := |rows| - 1;
      assert Ids(rows) == Ids(rows[..n]) + [rows[n].id];
      if m.id < rows[n].id {
        InsertRowRefuses(rows[..n], m);
      } else if rows[n].id < m.id {
        forall i | 0 <= i < |rows| ensures Ids(rows)[i] != m.id { assert rows[i].id <= rows[n].id; }
      }
    }
  }

  /** An accepted row is put at its place in the key order. */
  lemma {:induction false} InsertRowPlaces(rows: seq<Message>, m: Message)
    requires Ordered(rows) && InsertRow(rows, m).Some?
    ensures Ordered(InsertRow(rows, m).value)
    ensures forall x :: x in InsertRow(rows, m).value <==> x in rows || x == m
  {
    if rows != [] && m.id < rows[|rows| - 1].id {
      var front, last := rows[..|rows| - 1], rows[|rows| - 1];
      InsertRowPlaces(front, m);
      var r := InsertRow(front, m).value;
      forall i | 0 <= i < |r| ensures r[i].id < last.id { assert r[i] in r; }
      assert rows == front + [last];
    }
  }

  /** A batch whose keys continue the table's order is appended, and never refused. */
  lemma {:induction false} InsertRowsAppends(rows: seq<Message>, batch: seq<Message>)
    requires Ordered(rows + batch)
    ensures InsertRows(rows, batch) == Some(rows + batch)
  {
    if batch == [] {
      assert rows + batch == rows;
    } else {
      var front, last := batch[..|batch| - 1], batch[|batch| - 1];
      assert rows + batch == (rows + front) + [last];
      OrderedSlice(rows + batch, 0, |rows + front|);
      assert (rows + batch)[..|rows + front|] == rows + front;
      InsertRowsAppends(rows, front);
      var all := rows + batch;
      if rows + front != [] {
        assert all[|all| - 2].id < all[|all| - 1].id;
      }
    }
  }

  // ---------------------------------------------------------------- queries

  lemma OrderedSlice(rows: seq<Message>, lo: nat, hi: nat)
    requires Ordered(rows) && lo <= hi <= |rows|
    ensures Ordered(rows[lo..hi])
  {
  }

  lemma {:induction false} ChannelOfConcat(a: seq<Message>, b: seq<Message>, ch: nat)
    ensures Channel(a + b, ch) == Channel(a, ch) + Channel(b, ch)
  {
    if b == [] {
      assert a + b == a;
    } else {
      var front, last := b[..|b| - 1], b[|b| - 1];
      assert (a + b)[..|a + b| - 1] == a + front;
      ChannelOfConcat(a, front, ch);
    }
  }

  lemma {:induction false} ChannelMembers(rows: seq<Message>, ch: nat)
    ensures forall m :: m in Channel(rows, ch) <==> m in rows && m.channelId == ch
  {
    if rows != [] {
      var front, last := rows[..|rows| - 1], rows[|rows| - 1];
      ChannelMembers(front, ch);
      assert rows == front + [last];
    }
  }

  lemma {:induction false} ChannelOrdered(rows: seq<Message>, ch: nat)
    requires Ordered(rows)
    ensures Ordered(Channel(rows, ch))
  {
    if rows != [] {
      var front, last := rows[..|rows| - 1], rows[|rows| - 1];
      ChannelOrdered(front, ch);
      ChannelMembers(front, ch);
      assert rows == front + [last];
      var r := Channel(front, ch);
      forall i | 0 <= i < |r| ensures r[i].id < last.id {
        assert r[i] in r;
      }
    }
  }

  lemma ChannelSpec(rows: seq<Message>, ch: nat)
    ensures forall m :: m in Channel(rows, ch) <==> m in rows && m.channelId == ch
    ensures Ordered(rows) ==> Ordered(Channel(rows, ch))
  {
    ChannelMembers(rows, ch);
    if Ordered(rows) { ChannelOrdered(rows, ch); }
  }

  /** Rows below a bound, when they come before all others. */
  lemma {:induction false} BelowSplit(rows: seq<Message>, bound: nat, n: nat)
    requires n <= |rows|
    requires forall i | 0 <= i < n :: rows[i].id < bound
    requires forall i | n <= i < |rows| :: bound <= rows[i].id
    ensures Below(rows, bound) == rows[..n]
    decreases |rows|
  {
    if rows != [] {
      var front, last := rows[..|rows| - 1], rows[|rows| - 1];
      if n == |rows| {
        BelowSplit(front, bound, n - 1);
        assert rows[..n] == front + [last];
      } else {
        BelowSplit(front, bound, n);
        assert front[..n] == rows[..n];
      }
    }
  }

  /** In an ordered table the rows below a bound are a prefix. */
  lemma {:induction false} BelowIsPrefix(rows: seq<Message>, bound: nat, n: nat)
    requires Ordered(rows) && n <= |rows|
    requires n < |rows| ==> bound <= rows[n].id
    requires 0 < n ==> rows[n - 1].id < bound
    ensures Below(rows, bound) == rows[..n]
  {
    forall i | 0 <= i < |rows| ensures i < n <==> rows[i].id < bound {
      if i < n - 1 { assert rows[i].id < rows[n - 1].id; }
      if n < i { assert rows[n].id < rows[i].id; }
    }
    hide Below;
    BelowSplit(rows, bound, n);
  }

  /** How many rows of an ordered table lie below a bound. */
  function CountBelow(rows: seq<Message>, bound: nat): (n: nat)
    requires Ordered(rows)
    ensures n <= |rows|
    ensures forall i | 0 <= i < n :: rows[i].id < bound
    ensures forall i | n <= i < |rows| :: bound <= rows[i].id
  {
    if rows == [] then 0
    else if rows[|rows| - 1].id < bound then |rows|
    else CountBelow(rows[..|rows| - 1], bound)
  }

  /** The query, read off an ordered channel. */
  lemma BelowIsCount(rows: seq<Message>, bound: nat)
    requires Ordered(rows)
    ensures Below(rows, bound) == rows[..CountBelow(rows, bound)]
  {
    BelowIsPrefix(rows, bound, CountBelow(rows, bound));
  }

  /** A row matched by the query's two conditions. */
  predicate Matches(rows: seq<Message>, ch: nat, bound: nat, m: Message) {
    m in rows && m.channelId == ch && m.id < bound
  }

  lemma SliceBounds(c: seq<Message>, lo: nat, hi: nat, m: Message)
    requires Ordered(c) && lo <= hi <= |c|
    requires m in c[..hi] && m !in c[lo..hi]
    ensures forall p :: p in c[lo..hi] ==> m.id < p.id
  {
    var i :| 0 <= i < hi && c[i] == m;
    assert i < lo;
    forall p | p in c[lo..hi] ensures m.id < p.id {
      var j :| lo <= j < hi && c[j] == p;
    }
  }

  lemma MatchesInOrder(rows: seq<Message>, ch: nat, bound: nat)
    requires Ordered(rows)
    ensures Ordered(Channel(rows, ch))
    ensures forall m :: Matches(rows, ch, bound, m) <==>
              m in Channel(rows, ch)[..CountBelow(Channel(rows, ch), bound)]
  {
    ChannelSpec(rows, ch);
    var c := Channel(rows, ch);
    var n := CountBelow(c, bound);
    forall m ensures Matches(rows, ch, bound, m) <==> m in c[..n] {
      assert Matches(rows, ch, bound, m) <==> m in c && m.id < bound;
    }
  }

  /** What the query promises, without its own recursion: an ascending page of
      rows of the channel below the bound, at most `limit` of them; a matching
      row is missing only from a full page, and then it precedes the page. */
  lemma QueryIsLatestPage(rows: seq<Message>, ch: nat, bound: nat, limit: nat)
    requires Ordered(rows)
    ensures Ordered(Query(rows, ch, bound, limit)) && |Query(rows, ch, bound, limit)| <= limit
    ensures forall m :: m in Query(rows, ch, bound, limit) ==> Matches(rows, ch, bound, m)
    ensures forall m :: Matches(rows, ch, bound, m) && m !in Query(rows, ch, bound, limit) ==>
              && |Query(rows, ch, bound, limit)| == limit
              && forall p :: p in Query(rows, ch, bound, limit) ==> m.id < p.id
  {
    MatchesInOrder(rows, ch, bound);
    var c := Channel(rows, ch);
    BelowIsCount(c, bound);
    var n := CountBelow(c, bound);
    var lo := n - Min(n, limit);
    var page := Query(rows, ch, bound, limit);
    assert page == c[..n][lo..] == c[lo..n];
    OrderedSlice(c, lo, n);
    forall m | m in page ensures Matches(rows, ch, bound, m) {
      var i :| lo <= i < n && c[i] == m;
      assert m in c[..n];
    }
    forall m | Matches(rows, ch, bound, m) && m !in page
      ensures |page| == limit && forall p :: p in page ==> m.id < p.id
    {
      SliceBounds(c, lo, n, m);
      assert lo > 0;
    }
  }
}
