/** Signals whose slots may subscribe and unsubscribe while the signal is being
    emitted, and the subscription handles that own the slots. */
module Signals {
  import opened Sequences

  /** What identifies a slot's callback. */
  type Callback = nat

  /** What a running slot may do to the signal that runs it. */
  datatype Command = Subscribe(callback: Callback) | Unsubscribe(id: nat)

  datatype Slots = Slots(live: map<nat, Callback>, next: nat)

  predicate Fresh(s: Slots) {
    forall id | id in s.live :: id < s.next
  }

  function Apply(s: Slots, c: Command): Slots {
    match c
    case Subscribe(callback) => Slots(s.live[s.next := callback], s.next + 1)
    case Unsubscribe(id) => Slots(s.live - {id}, s.next)
  }

  function ApplyAll(s: Slots, cs: seq<Command>): Slots {
    if cs == [] then s else Apply(ApplyAll(s, cs[..|cs| - 1]), cs[|cs| - 1])
  }

  /** An emission over a snapshot of ids: the slots left and the ids run. The
      `k`-th slot to run performs the commands `behave(k)`; as `behave` is
      arbitrary, so is the behaviour of the slots. */
  function Emission(s: Slots, snapshot: seq<nat>, behave: nat -> seq<Command>): (Slots, seq<nat>) {
    if snapshot == [] then (s, [])
    else
      var (before, ran) := Emission(s, snapshot[..|snapshot| - 1], behave);
      var id := snapshot[|snapshot| - 1];
      if id in before.live then (ApplyAll(before, behave(|ran|)), ran + [id]) else (before, ran)
  }

  /** The callbacks an emission calls. */
  function Called(s: Slots, snapshot: seq<nat>, behave: nat -> seq<Command>): seq<Callback> {
    if snapshot == [] then []
    else
      var front, id := snapshot[..|snapshot| - 1], snapshot[|snapshot| - 1];
      var before := Emission(s, front, behave).0;
      Called(s, front, behave) + if id in before.live then [before.live[id]] else []
  }

  /** The slots that have run before the `i`-th of the snapshot has its turn. */
  function RanBefore(s: Slots, snapshot: seq<nat>, behave: nat -> seq<Command>, i: nat): seq<nat>
    requires i <= |snapshot|
  {
    Emission(s, snapshot[..i], behave).1
  }

  predicate NoDuplicates(s: seq<nat>) {
    forall i, j | 0 <= i < j < |s| :: s[i] != s[j]
  }

  ghost predicate Enumerates(s: seq<nat>, ids: set<nat>) {
    NoDuplicates(s) && forall id :: id in s <==> id in ids
  }

  // --------------------------------------------------------------- emission

  /** Commands remove an existing slot only by unsubscribing it: the ids they
      hand out are new. */
  lemma {:induction false} ApplyAllSpec(s: Slots, cs: seq<Command>)
    requires Fresh(s)
    ensures Fresh(ApplyAll(s, cs)) && s.next <= ApplyAll(s, cs).next
    ensures forall id | id < s.next :: id in ApplyAll(s, cs).live <==> id in s.live && Unsubscribe(id) !in cs
    ensures forall id | id < s.next && id in ApplyAll(s, cs).live :: ApplyAll(s, cs).live[id] == s.live[id]
  {
    if cs != [] {
      ApplyAllSpec(s, cs[..|cs| - 1]);
      assert cs == cs[..|cs| - 1] + [cs[|cs| - 1]];
    }
  }

  /** A slot that was there at the start is still there at any point exactly
      when none of the slots that have run so far has unsubscribed it. */
  lemma {:induction false} LiveUntilRemoved(s: Slots, snapshot: seq<nat>, behave: nat -> seq<Command>)
    requires Fresh(s)
    ensures var (after, ran) := Emission(s, snapshot, behave);
      && Fresh(after) && s.next <= after.next
      && forall id | id < s.next ::
           id in after.live <==> id in s.live && forall k | 0 <= k < |ran| :: Unsubscribe(id) !in behave(k)
  {
    if snapshot != [] {
      var front := snapshot[..|snapshot| - 1];
      LiveUntilRemoved(s, front, behave);
      var (before, ran) := Emission(s, front, behave);
      if snapshot[|snapshot| - 1] in before.live {
        ApplyAllSpec(before, behave(|ran|));
      }
    }
  }

  /** A new subscription stores its callback under an id never used before and leaves
      the others alone; an unsubscription takes out one slot. */
  lemma CommandEffect(s: Slots, c: Command)
    requires Fresh(s)
    ensures var t := Apply(s, c);
      match c
      case Subscribe(callback) =>
        && s.next !in s.live && s.next in t.live && t.live[s.next] == callback && t.next == s.next + 1
        && (forall id | id != s.next :: id in t.live <==> id in s.live)
        && (forall id | id in s.live :: t.live[id] == s.live[id])
      case Unsubscribe(gone) =>
        && t.next == s.next && gone !in t.live
        && (forall id | id != gone :: id in t.live <==> id in s.live)
        && (forall id | id in t.live :: t.live[id] == s.live[id])
  {
  }

  /** The commands of the first `n` slots that run, in order. */
  function Commands(behave: nat -> seq<Command>, n: nat): seq<Command> {
    if n == 0 then [] else Commands(behave, n - 1) + behave(n - 1)
  }

  lemma {:induction false} ApplyAllConcat(s: Slots, a: seq<Command>, b: seq<Command>)
    ensures ApplyAll(s, a + b) == ApplyAll(ApplyAll(s, a), b)
    decreases |b|
  {
    if b == [] {
      assert a + b == a;
    } else {
      ApplyAllConcat(s, a, b[..|b| - 1]);
      assert (a + b)[..|a + b| - 1] == a + b[..|b| - 1];
    }
  }

  /** An emission leaves the slots as its slots' commands, one after the other, do:
      what they subscribe and unsubscribe takes effect, and nothing else does. */
  lemma {:induction false} EmissionAppliesCommands(s: Slots, snapshot: seq<nat>, behave: nat -> seq<Command>)
    ensures var (after, ran) := Emission(s, snapshot, behave); after == ApplyAll(s, Commands(behave, |ran|))
  {
    if snapshot != [] {
      var front := snapshot[..|snapshot| - 1];
      EmissionAppliesCommands(s, front, behave);
      var (before, ran) := Emission(s, front, behave);
      if snapshot[|snapshot| - 1] in before.live {
        ApplyAllConcat(s, Commands(behave, |ran|), behave(|ran|));
      }
    }
  }

  lemma {:induction false} CallbacksKept(s: Slots, snapshot: seq<nat>, behave: nat -> seq<Command>)
    requires Fresh(s)
    ensures var after := Emission(s, snapshot, behave).0;
      && Fresh(after) && s.next <= after.next
      && forall id | id < s.next && id in after.live :: id in s.live && after.live[id] == s.live[id]
  {
    if snapshot != [] {
      var front := snapshot[..|snapshot| - 1];
      CallbacksKept(s, front, behave);
      var (before, ran) := Emission(s, front, behave);
      if snapshot[|snapshot| - 1] in before.live { ApplyAllSpec(before, behave(|ran|)); }
    }
  }

  /** Each slot that runs has the callback called with which it was subscribed. */
  lemma {:induction false} CallsOwnCallback(s: Slots, snapshot: seq<nat>, behave: nat -> seq<Command>)
    requires Fresh(s) && forall id | id in snapshot :: id < s.next
    ensures var ran, called := Emission(s, snapshot, behave).1, Called(s, snapshot, behave);
      |called| == |ran| && forall k | 0 <= k < |ran| :: ran[k] in s.live && called[k] == s.live[ran[k]]
  {
    if snapshot != [] {
      var front := snapshot[..|snapshot| - 1];
      assert forall id | id in front :: id in snapshot;
      CallsOwnCallback(s, front, behave);
      CallbacksKept(s, front, behave);
      assert snapshot[|snapshot| - 1] in snapshot;
      hide ApplyAll, Fresh;
    }
  }

  lemma {:induction false} RanIsSubsequence(s: Slots, snapshot: seq<nat>, behave: nat -> seq<Command>)
    requires NoDuplicates(snapshot)
    ensures NoDuplicates(Emission(s, snapshot, behave).1)
    ensures forall id | id in Emission(s, snapshot, behave).1 :: id in snapshot
  {
    if snapshot != [] {
      var front := snapshot[..|snapshot| - 1];
      RanIsSubsequence(s, front, behave);
      assert snapshot == front + [snapshot[|snapshot| - 1]];
      assert snapshot[|snapshot| - 1] !in front;
    }
  }

  lemma {:induction false} RanExtends(s: Slots, snapshot: seq<nat>, behave: nat -> seq<Command>, i: nat)
    requires i < |snapshot|
    ensures snapshot[i] in RanBefore(s, snapshot, behave, i + 1) ==> snapshot[i] in Emission(s, snapshot, behave).1
    ensures NoDuplicates(snapshot) && snapshot[i] in Emission(s, snapshot, behave).1 ==> snapshot[i] in RanBefore(s, snapshot, behave, i + 1)
    decreases |snapshot|
  {
    var front := snapshot[..|snapshot| - 1];
    if i + 1 < |snapshot| {
      RanExtends(s, front, behave, i);
      assert front[..i + 1] == snapshot[..i + 1];
    } else {
      assert snapshot[..i + 1] == snapshot;
    }
  }

  /** Each slot present at the start runs exactly once unless a slot that runs
      before its turn unsubscribes it; no slot subscribed meanwhile runs. */
  lemma EachRunsUnlessRemoved(s: Slots, snapshot: seq<nat>, behave: nat -> seq<Command>, i: nat)
    requires Fresh(s) && Enumerates(snapshot, s.live.Keys) && i < |snapshot|
    ensures var ran := Emission(s, snapshot, behave).1;
      && (snapshot[i] in ran <==>
            forall k | 0 <= k < |RanBefore(s, snapshot, behave, i)| :: Unsubscribe(snapshot[i]) !in behave(k))
      && NoDuplicates(ran)
      && (forall id | id in ran :: id in s.live)
  {
    RanExtends(s, snapshot, behave, i);
    RanIsSubsequence(s, snapshot, behave);
    RanIsSubsequence(s, snapshot[..i], behave);
    LiveUntilRemoved(s, snapshot[..i], behave);
    var id := snapshot[i];
    assert id in snapshot;
    assert snapshot[..i + 1][..i] == snapshot[..i];
    assert id !in snapshot[..i];
  }

  // -------------------------------------------------------------- the classes

  /** The id counter that all signals with the same arguments share. */
  class SlotCounter {
    var next: nat
    constructor ()
      ensures next == 0
    {
      next := 0;
    }
  }

  class SignalState {
    const counter: SlotCounter
    var slots: map<nat, Callback>
    var alive: bool

    constructor (counter: SlotCounter)
      ensures this.counter == counter && slots == map[] && alive
    {
      this.counter := counter;
      slots := map[];
      alive := true;
    }

    ghost function View(): Slots
      reads this, counter
    {
      Slots(slots, counter.next)
    }

    method Subscribe(callback: Callback) returns (id: nat)
      modifies this`slots, counter
      ensures id == old(counter.next)
      ensures View() == Apply(old(View()), Command.Subscribe(callback))
    {
      id := counter.next;
      counter.next := counter.next + 1;
      slots := slots[id := callback];
    }

    method Unsubscribe(id: nat)
      modifies this`slots
      ensures View() == Apply(old(View()), Command.Unsubscribe(id))
    {
      slots := slots - {id};
    }

    /** What a slot does when it is called. */
    method Invoke(commands: seq<Command>)
      modifies this`slots, counter
      ensures View() == ApplyAll(old(View()), commands)
    {
      for i := 0 to |commands|
        invariant View() == ApplyAll(old(View()), commands[..i])
      {
        assert commands[..i + 1][..i] == commands[..i];
        match commands[i]
        case Subscribe(callback) => var _ := Subscribe(callback);
        case Unsubscribe(id) => Unsubscribe(id);
      }
      assert commands[..|commands|] == commands;
    }

    /** Runs the slots over a snapshot of the ids, in the order in which the map
        happens to list them, looking each one up again before running it. */
    method Emit(behave: nat -> seq<Command>) returns (snapshot: seq<nat>, ran: seq<nat>, called: seq<Callback>)
      modifies this`slots, counter
      ensures Enumerates(snapshot, old(slots.Keys))
      ensures (View(), ran) == Emission(old(View()), snapshot, behave)
      ensures called == Called(old(View()), snapshot, behave)
    {
      snapshot := [];
      var listed := slots.Keys;
      while listed != {}
        invariant slots == old(slots) && listed <= slots.Keys
        invariant Enumerates(snapshot, slots.Keys - listed)
        decreases listed
      {
        var id :| id in listed;
        listed := listed - {id};
        snapshot := snapshot + [id];
      }

      ran, called := [], [];
      for i := 0 to |snapshot|
        invariant (View(), ran) == Emission(old(View()), snapshot[..i], behave)
        invariant called == Called(old(View()), snapshot[..i], behave)
      {
        assert snapshot[..i + 1][..i] == snapshot[..i];
        if snapshot[i] in slots {
          ran := ran + [snapshot[i]];
          called := called + [slots[snapshot[i]]];
          Invoke(behave(|ran| - 1));
        }
      }
      assert snapshot[..|snapshot|] == snapshot;
    }
  }

  /** The owner of one slot. Without a signal it owns nothing. */
  class SignalSubscription {
    var id: int
    var signal: SignalState?

    ghost function Held(): Option<(SignalState?, int)>
      reads this
    {
      if signal == null then None else Some((signal, id))
    }

    constructor Bound(id: nat, signal: SignalState)
      ensures Held() == Some((signal, id as int))
    {
      this.id := id;
      this.signal := signal;
    }

    /** The move constructor takes what the other handle holds. */
    constructor Move(other: SignalSubscription)
      modifies other
      ensures Held() == old(other.Held()) && other.Held() == None
    {
      id := other.id;
      signal := other.signal;
      new;
      other.signal := null;
    }

    /** Also the destructor: the held slot, and no other, is removed. */
    method Unsubscribe()
      requires signal != null ==> 0 <= id
      modifies this`signal, if signal == null then {} else {signal}
      ensures Held() == None && id == old(id)
      ensures old(signal) != null && old(signal.alive) ==> old(signal).slots == old(signal.slots) - {old(id)}
      ensures old(signal) != null && !old(signal.alive) ==> old(signal).slots == old(signal.slots)
      ensures old(signal) != null ==> old(signal).alive == old(signal.alive)
    {
      var state := signal;
      signal := null;
      if state == null || !state.alive { return; }
      state.Unsubscribe(id);
    }

    /** Move assignment gives up the slot held so far and takes the other's. */
    method Assign(other: SignalSubscription)
      requires signal != null ==> 0 <= id
      modifies this, other, if signal == null then {} else {signal}
      ensures this == other ==> Held() == old(Held()) && (signal != null ==> signal.slots == old(signal.slots))
      ensures this != other ==> Held() == old(other.Held()) && other.Held() == None
      ensures this != other && old(signal) != null && old(signal.alive) ==>
                old(signal).slots == old(signal.slots) - {old(id)}
      ensures old(signal) != null ==> old(signal).alive == old(signal.alive)
    {
      if this == other { return; }
      Unsubscribe();
      id := other.id;
      signal := other.signal;
      other.signal := null;
    }
  }

  // ----------------------------------------------------- ownership over a run

  /** Handles of one signal and the slots they hold. */
  datatype Owners = Owners(held: map<nat, Option<nat>>, slots: set<nat>, next: nat)

  datatype HandleAction =
    | Take(h: nat)
    | MoveNew(h: nat, from: nat)
    | MoveTo(h: nat, from: nat)
    | Release(h: nat)
    | Destroy(h: nat)

  function HeldBy(o: Owners, h: nat): set<nat>
    requires h in o.held
  {
    if o.held[h].Some? then {o.held[h].value} else {}
  }

  predicate CanHandle(o: Owners, a: HandleAction) {
    match a
    case Take(h) => h !in o.held
    case MoveNew(h, from) => h !in o.held && from in o.held
    case MoveTo(h, from) => h in o.held && from in o.held
    case Release(h) => h in o.held
    case Destroy(h) => h in o.held
  }

  function Handle(o: Owners, a: HandleAction): Owners
    requires CanHandle(o, a)
  {
    match a
    case Take(h) => Owners(o.held[h := Some(o.next)], o.slots + {o.next}, o.next + 1)
    case MoveNew(h, from) => o.(held := o.held[h := o.held[from]][from := None])
    case MoveTo(h, from) =>
      if h == from then o
      else Owners(o.held[h := o.held[from]][from := None], o.slots - HeldBy(o, h), o.next)
    case Release(h) => Owners(o.held[h := None], o.slots - HeldBy(o, h), o.next)
    case Destroy(h) => Owners(o.held - {h}, o.slots - HeldBy(o, h), o.next)
  }

  ghost predicate HasOwner(o: Owners, id: nat) {
    exists h :: h in o.held && o.held[h] == Some(id)
  }

  /** Every slot has exactly one owner, and every handle holds a slot that is there. */
  ghost predicate OwnedOnce(o: Owners) {
    && (forall h | h in o.held && o.held[h].Some? :: o.held[h].value in o.slots)
    && (forall h, g | h in o.held && g in o.held && h != g && o.held[h].Some? :: o.held[h] != o.held[g])
    && (forall id | id in o.slots :: id < o.next && HasOwner(o, id))
  }

  lemma OwnersKept(o: Owners, a: HandleAction, id: nat)
    requires OwnedOnce(o) && CanHandle(o, a) && id in Handle(o, a).slots
    ensures HasOwner(Handle(o, a), id)
  {
    var r := Handle(o, a);
    if id in o.slots {
      var h :| h in o.held && o.held[h] == Some(id);
      var owner := if (a.MoveNew? || a.MoveTo?) && h == a.from then a.h else h;
      assert r.held[owner] == Some(id);
    } else {
      assert r.held[a.h] == Some(id);
    }
  }

  /** No two handles come to hold the same slot, and none holds a slot that is gone. */
  lemma HeldStaysDistinct(o: Owners, a: HandleAction, h: nat)
    requires OwnedOnce(o) && CanHandle(o, a) && h in Handle(o, a).held && Handle(o, a).held[h].Some?
    ensures var r := Handle(o, a);
      && r.held[h].value in r.slots
      && forall g | g in r.held && g != h :: r.held[h] != r.held[g]
  {
    hide HasOwner;
    match a
    case Take(_) =>
    case MoveNew(_, _) =>
    case MoveTo(_, _) =>
    case Release(_) =>
    case Destroy(_) =>
  }

  lemma HandleKeeps(o: Owners, a: HandleAction)
    requires OwnedOnce(o) && CanHandle(o, a)
    ensures OwnedOnce(Handle(o, a))
  {
    var r := Handle(o, a);
    assert r.next >= o.next && forall id | id in r.slots :: id in o.slots || id < r.next;
    forall id | id in r.slots ensures id < r.next && HasOwner(r, id) {
      OwnersKept(o, a, id);
    }
    hide HasOwner;
    forall h | h in r.held && r.held[h].Some?
      ensures r.held[h].value in r.slots && forall g | g in r.held && g != h :: r.held[h] != r.held[g]
    {
      HeldStaysDistinct(o, a, h);
    }
    hide Handle;
  }

  predicate CanHandleAll(o: Owners, actions: seq<HandleAction>)
    decreases |actions|
  {
    actions == [] || (CanHandle(o, actions[0]) && CanHandleAll(Handle(o, actions[0]), actions[1..]))
  }

  function HandleAll(o: Owners, actions: seq<HandleAction>): Owners
    requires CanHandleAll(o, actions)
    decreases |actions|
  {
    if actions == [] then o else HandleAll(Handle(o, actions[0]), actions[1..])
  }

  /** Moves and assignments, in any order, neither drop a slot that is still
      owned nor leave one with two owners. */
  lemma {:induction false} OwnershipKept(o: Owners, actions: seq<HandleAction>)
    requires OwnedOnce(o) && CanHandleAll(o, actions)
    ensures OwnedOnce(HandleAll(o, actions))
    decreases |actions|
  {
    if actions != [] {
      HandleKeeps(o, actions[0]);
      OwnershipKept(Handle(o, actions[0]), actions[1..]);
    }
  }

  /** The handles of a program on one living signal, by name: each operation on a
      handle is the step of the ownership machine. */
  class Handles {
    const signal: SignalState
    var handles: map<nat, SignalSubscription>

    constructor (signal: SignalState)
      requires signal.alive && signal.slots == map[]
      ensures this.signal == signal && Valid() && View() == Owners(map[], {}, signal.counter.next)
    {
      this.signal := signal;
      handles := map[];
    }

    ghost predicate Valid()
      reads this, handles.Values, signal
    {
      && signal.alive
      && (forall h | h in handles :: handles[h].signal == null || (handles[h].signal == signal && 0 <= handles[h].id))
      && (forall h, g | h in handles && g in handles && h != g :: handles[h] != handles[g])
    }

    ghost function Held(h: nat): Option<nat>
      requires Valid() && h in handles
      reads this, handles.Values, signal
    {
      if handles[h].signal == null then None else Some(handles[h].id)
    }

    ghost function View(): Owners
      requires Valid()
      reads this, handles.Values, signal, signal.counter
    {
      Owners(map h | h in handles :: Held(h), signal.slots.Keys, signal.counter.next)
    }

    /** Subscribing hands out a handle that owns the new slot. */
    method Take(h: nat, callback: Callback)
      requires Valid() && h !in handles
      modifies this, signal, signal.counter
      ensures Valid() && View() == Handle(old(View()), HandleAction.Take(h))
    {
      ghost var before := View();
      hide Fresh, ApplyAll, HeldBy;
      var id := signal.Subscribe(callback);
      var handle := new SignalSubscription.Bound(id, signal);
      handles := handles[h := handle];
      assert Valid();
      assert signal.slots.Keys == before.slots + {id};
      hide Apply;
      assert forall g | g in before.held :: Held(g) == before.held[g];
      assert Held(h) == Some(id);
      hide SignalSubscription.Held;
      assert View().held == before.held[h := Some(id)];
    }

    method MoveNew(h: nat, from: nat)
      requires Valid() && h !in handles && from in handles
      modifies this, handles.Values
      ensures Valid() && View() == Handle(old(View()), HandleAction.MoveNew(h, from))
    {
      ghost var before := View();
      var handle := new SignalSubscription.Move(handles[from]);
      handles := handles[h := handle];
      assert View().held == before.held[h := before.held[from]][from := None];
    }

    method MoveTo(h: nat, from: nat)
      requires Valid() && h in handles && from in handles
      modifies handles.Values, signal
      ensures Valid() && View() == Handle(old(View()), HandleAction.MoveTo(h, from))
    {
      ghost var before := View();
      handles[h].Assign(handles[from]);
      assert Valid();
      hide SignalSubscription.Held, OwnedOnce, HasOwner, Emission;
      if h != from {
        assert signal.slots.Keys == before.slots - HeldBy(before, h);
        hide Valid;
        assert View().held == before.held[h := before.held[from]][from := None];
      }
    }

    method Release(h: nat)
      requires Valid() && h in handles
      modifies handles.Values, signal
      ensures Valid() && View() == Handle(old(View()), HandleAction.Release(h))
    {
      ghost var before := View();
      handles[h].Unsubscribe();
      assert View().held == before.held[h := None];
    }

    method Destroy(h: nat)
      requires Valid() && h in handles
      modifies this, handles.Values, signal
      ensures Valid() && View() == Handle(old(View()), HandleAction.Destroy(h))
    {
      ghost var before := View();
      handles[h].Unsubscribe();
      handles := handles - {h};
      assert Valid();
      assert signal.slots.Keys == before.slots - HeldBy(before, h);
      hide Valid, SignalSubscription.Held;
      assert View().held == before.held - {h};
    }
  }
}
