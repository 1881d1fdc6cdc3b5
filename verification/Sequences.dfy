/** Facts about sequences that the other modules share: strictly ascending
    sequences of ids, and the last elements of a sequence. */
module Sequences {

  datatype Option<+T> = None | Some(value: T)

  /** Strictly ascending, hence duplicate-free. */
  predicate Ascending(s: seq<int>) {
    forall i, j | 0 <= i < j < |s| :: s[i] < s[j]
  }

  /** Ascending with repetitions allowed. */
  predicate Sorted(s: seq<int>) {
    forall i, j | 0 <= i < j < |s| :: s[i] <= s[j]
  }

  function Min(a: int, b: int): int {
    if a <= b then a else b
  }

  /** The last `n` elements, or all of them when there are fewer. */
  function LastN<T>(s: seq<T>, n: nat): (r: seq<T>)
    ensures |r| == Min(|s|, n)
  {
    s[|s| - Min(|s|, n)..]
  }

  lemma Inhabited(s: seq<int>)
    ensures s == [] || exists x :: x in s
  {
    if s != [] {
      var x := s[0];
      assert x in s;
    }
  }

  /** An ascending sequence is determined by its elements. */
  lemma {:induction false} AscendingUnique(s: seq<int>, t: seq<int>)
    requires Ascending(s) && Ascending(t)
    requires forall x :: x in s <==> x in t
    ensures s == t
    decreases |s|
  {
    if s == [] {
      Inhabited(t);
    } else {
      var a := s[|s| - 1];
      assert a in s;
      assert a in t;
      var b := t[|t| - 1];
      assert b in t;
      assert b in s;
      assert a == b;
      var s', t' := s[..|s| - 1], t[..|t| - 1];
      forall x ensures x in s' <==> x in t' {
        if x in s' {
          assert x in s;
          assert x != a;
          assert x in t;
        }
        if x in t' {
          assert x in t;
          assert x != a;
          assert x in s;
        }
      }
      AscendingUnique(s', t');
      assert s == s' + [a] && t == t' + [a];
    }
  }

  /** Inserting one id into an ascending list. */
  function InsertId(ids: seq<nat>, id: nat): seq<nat> {
    if ids == [] || ids[|ids| - 1] < id then ids + [id]
    else if ids[|ids| - 1] == id then ids
    else InsertId(ids[..|ids| - 1], id) + [ids[|ids| - 1]]
  }

  lemma {:induction false} InsertIdIsUnion(ids: seq<nat>, id: nat)
    requires Ascending(ids)
    ensures Ascending(InsertId(ids, id))
    ensures forall x :: x in InsertId(ids, id) <==> x in ids || x == id
  {
    if ids == [] || ids[|ids| - 1] <= id {
    } else {
      var front, last := ids[..|ids| - 1], ids[|ids| - 1];
      InsertIdIsUnion(front, id);
      var r := InsertId(front, id);
      forall i | 0 <= i < |r| ensures r[i] < last {
        assert r[i] in r;
      }
      assert ids == front + [last];
    }
  }

  /** The specification of assigning ids to a log: insert them one by one. */
  function AssignIds(ids: seq<nat>, incoming: seq<nat>): seq<nat> {
    if incoming == [] then ids
    else InsertId(AssignIds(ids, incoming[..|incoming| - 1]), incoming[|incoming| - 1])
  }

  /** Assigning ids yields the ascending list of the union, whatever the order
      and the repetitions of the incoming ids. */
  lemma {:induction false} AssignIdsIsUnion(ids: seq<nat>, incoming: seq<nat>)
    requires Ascending(ids)
    ensures Ascending(AssignIds(ids, incoming))
    ensures forall x :: x in AssignIds(ids, incoming) <==> x in ids || x in incoming
  {
    if incoming != [] {
      var front, last := incoming[..|incoming| - 1], incoming[|incoming| - 1];
      AssignIdsIsUnion(ids, front);
      InsertIdIsUnion(AssignIds(ids, front), last);
      assert incoming == front + [last];
    }
  }

  /** Ids that all lie below the first id of the list are put in front of it. */
  lemma AssignIdsInFront(ids: seq<nat>, incoming: seq<nat>)
    requires Ascending(incoming + ids)
    ensures AssignIds(ids, incoming) == incoming + ids
  {
    assert Ascending(ids) by {
      assert ids == (incoming + ids)[|incoming|..];
    }
    AssignIdsIsUnion(ids, incoming);
    AscendingUnique(AssignIds(ids, incoming), incoming + ids);
  }
}
