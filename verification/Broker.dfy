/** `MemoryResourceBroker`: all-or-nothing acquisition over a table of held amounts. */
module Broker {
  import opened Core
  import opened Sorting

  /** `failAfter` scripts a failure: 0 fails now, a positive count runs down, a negative one never fails. */
  datatype Ledger = Ledger(defaultCap: u64, caps: map<u64, u64>, held: map<u64, u64>, failAfter: int) {
    function Cap(r: u64): u64 { if r in caps then caps[r] else defaultCap }

    function Held(r: u64): u64 { if r in held then held[r] else 0 }

    /** The check `acquire` makes for one resource, in 64-bit arithmetic. */
    predicate Affords(r: u64, size: u64) {
      if r in held then Add64(held[r], size) <= Cap(r) else size <= Cap(r)
    }

    /** No resource is held beyond its capacity. */
    ghost predicate Within() { forall r :: r in held ==> held[r] <= Cap(r) }
  }

  function Charge(held: map<u64, u64>, r: u64, size: u64): map<u64, u64> {
    held[r := Add64(if r in held then held[r] else 0, size)]
  }

  function ChargeAll(held: map<u64, u64>, resources: seq<u64>, sizes: seq<u64>): map<u64, u64>
    requires |resources| == |sizes|
  {
    if resources == [] then held
    else
      Charge(ChargeAll(held, resources[..|resources| - 1], sizes[..|sizes| - 1]),
             resources[|resources| - 1], sizes[|sizes| - 1])
  }

  function Armed(l: Ledger): Ledger { if l.failAfter > 0 then l.(failAfter := l.failAfter - 1) else l }

  /** `acquire`: the new ledger, and whether the claims were granted. */
  function Acquire(l: Ledger, resources: seq<u64>, sizes: seq<u64>): (Ledger, bool)
    requires |resources| == |sizes|
  {
    if l.failAfter == 0 then (l, false)
    else if exists i :: 0 <= i < |resources| && !l.Affords(resources[i], sizes[i]) then (Armed(l), false)
    else (Armed(l).(held := ChargeAll(l.held, resources, sizes)), true)
  }

  /** `release` forgets everything held on the resources, whoever claimed it. */
  function Release(l: Ledger, resources: seq<u64>): Ledger {
    l.(held := map r | r in l.held && r !in resources :: l.held[r])
  }

  // ----- what acquisition guarantees -----

  /** The amount claimed on `r`. */
  function Claimed(resources: seq<u64>, sizes: seq<u64>, r: u64): nat
    requires |resources| == |sizes|
  {
    if resources == [] then 0
    else
      Claimed(resources[..|resources| - 1], sizes[..|sizes| - 1], r)
      + if resources[|resources| - 1] == r then sizes[|sizes| - 1] else 0
  }

  lemma WrapTwice(x: nat, y: nat)
    ensures (x % TWO64 + y) % TWO64 == (x + y) % TWO64
  {
  }

  lemma {:induction false} ChargedTotals(held: map<u64, u64>, resources: seq<u64>, sizes: seq<u64>, r: u64)
    requires |resources| == |sizes|
    ensures var after := ChargeAll(held, resources, sizes);
      && (r in after <==> r in held || r in resources)
      && (r in after ==> after[r] == ((if r in held then held[r] else 0) + Claimed(resources, sizes, r)) % TWO64)
  {
    if resources == [] {
      assert r in held ==> held[r] % TWO64 == held[r];
    } else {
      var front, fsizes, size := resources[..|resources| - 1], sizes[..|sizes| - 1], sizes[|sizes| - 1];
      ChargedTotals(held, front, fsizes, r);
      assert resources == front + [resources[|resources| - 1]];
      if r !in held && r !in front { UnclaimedTotals(front, fsizes, r); }
      WrapTwice((if r in held then held[r] else 0) + Claimed(front, fsizes, r), size);
    }
  }

  lemma {:induction false} UnclaimedTotals(resources: seq<u64>, sizes: seq<u64>, r: u64)
    requires |resources| == |sizes| && r !in resources
    ensures Claimed(resources, sizes, r) == 0
  {
    if resources != [] {
      assert resources[|resources| - 1] in resources;
      assert forall x :: x in resources[..|resources| - 1] ==> x in resources;
      UnclaimedTotals(resources[..|resources| - 1], sizes[..|sizes| - 1], r);
    }
  }

  lemma {:induction false} DistinctTotals(resources: seq<u64>, sizes: seq<u64>, i: nat)
    requires |resources| == |sizes| && Distinct(resources) && i < |resources|
    ensures Claimed(resources, sizes, resources[i]) == sizes[i]
  {
    var front := resources[..|resources| - 1];
    if i == |resources| - 1 {
      assert resources[i] !in front;
      UnclaimedTotals(front, sizes[..|sizes| - 1], resources[i]);
    } else {
      DistinctTotals(front, sizes[..|sizes| - 1], i);
    }
  }

  /** A refused acquisition leaves what is held alone. */
  lemma RefusalHoldsNothing(l: Ledger, resources: seq<u64>, sizes: seq<u64>)
    requires |resources| == |sizes| && !Acquire(l, resources, sizes).1
    ensures Acquire(l, resources, sizes).0.held == l.held
  {
  }

  lemma Granted(l: Ledger, resources: seq<u64>, sizes: seq<u64>)
    requires |resources| == |sizes| && Acquire(l, resources, sizes).1
    ensures var after := Acquire(l, resources, sizes).0;
      after.held == ChargeAll(l.held, resources, sizes) && after.caps == l.caps && after.defaultCap == l.defaultCap
  {
    hide ChargeAll;
  }

  /** A granted acquisition stays within capacity exactly when, resource by resource, what was held and
      everything claimed on it fit together. */
  lemma GrantStaysWithinIff(l: Ledger, resources: seq<u64>, sizes: seq<u64>)
    requires |resources| == |sizes| && l.Within() && Acquire(l, resources, sizes).1
    ensures Acquire(l, resources, sizes).0.Within() <==>
      forall r :: r in resources ==> (l.Held(r) + Claimed(resources, sizes, r)) % TWO64 <= l.Cap(r)
  {
    hide ChargeAll, Claimed, Acquire;
    Granted(l, resources, sizes);
    var after := Acquire(l, resources, sizes).0;
    forall r | r in after.held
      ensures after.held[r] <= after.Cap(r) <==>
        (r in resources ==> (l.Held(r) + Claimed(resources, sizes, r)) % TWO64 <= l.Cap(r))
    {
      ChargedTotals(l.held, resources, sizes, r);
      if r !in resources { UnclaimedTotals(resources, sizes, r); }
    }
    forall r | r in resources ensures r in after.held { ChargedTotals(l.held, resources, sizes, r); }
  }

  /** Claims without repetitions always do. */
  lemma DistinctClaimsStayWithin(l: Ledger, resources: seq<u64>, sizes: seq<u64>)
    requires |resources| == |sizes| && l.Within() && Distinct(resources)
    ensures Acquire(l, resources, sizes).0.Within()
  {
    if Acquire(l, resources, sizes).1 {
      forall r | r in resources ensures (l.Held(r) + Claimed(resources, sizes, r)) % TWO64 <= l.Cap(r) {
        var i :| 0 <= i < |resources| && resources[i] == r;
        DistinctTotals(resources, sizes, i);
        assert l.Affords(resources[i], sizes[i]);
      }
      GrantStaysWithinIff(l, resources, sizes);
    }
  }

  /** Repeated claims need not: each is checked against what was held before any of them. */
  lemma RepeatedClaimOverruns()
    ensures var l := Ledger(1, map[], map[], -1);
      l.Within() && Acquire(l, [7, 7], [1, 1]).1 && !Acquire(l, [7, 7], [1, 1]).0.Within()
  {
    var l := Ledger(1, map[], map[], -1);
    ChargedTotals(l.held, [7, 7], [1, 1], 7);
    assert [7, 7][..1] == [7] && [1, 1][..1] == [1] && [7][..0] == [] && [1][..0] == [];
    assert Claimed([7], [1], 7) == 1 && Claimed([7, 7], [1, 1], 7) == 2;
    assert Acquire(l, [7, 7], [1, 1]).0.held[7] == 2;
  }

  /** The claim by itself finds room, in the 64-bit sum, beside what was held before. */
  predicate FindsRoom(l: Ledger, r: u64, size: u64) {
    var had := if r in l.held then l.held[r] else 0;
    var room := if r in l.caps then l.caps[r] else l.defaultCap;
    (had + size) % TWO64 <= room
  }

  /** What is held of a resource once everything claimed on it is added. */
  function Added(l: Ledger, resources: seq<u64>, sizes: seq<u64>, r: u64): u64
    requires |resources| == |sizes|
  {
    ((if r in l.held then l.held[r] else 0) + Claimed(resources, sizes, r)) % TWO64
  }

  /** An acquisition is granted, unless a failure is due, exactly if every claim by itself finds room; then every
      resource holds what it held and everything claimed on it, and else what it held. A scripted countdown runs
      down by one. */
  lemma AcquisitionIff(l: Ledger, resources: seq<u64>, sizes: seq<u64>)
    requires |resources| == |sizes|
    ensures var after, granted := Acquire(l, resources, sizes).0, Acquire(l, resources, sizes).1;
      && (granted <==>
            l.failAfter != 0 && forall i :: 0 <= i < |resources| ==> FindsRoom(l, resources[i], sizes[i]))
      && (granted ==> forall r :: r in after.held <==> r in l.held || r in resources)
      && (granted ==> forall r :: r in after.held ==> after.held[r] == Added(l, resources, sizes, r))
      && (!granted ==> after.held == l.held)
      && after.failAfter == (if l.failAfter > 0 then l.failAfter - 1 else l.failAfter)
      && after.caps == l.caps && after.defaultCap == l.defaultCap
  {
    hide ChargeAll, Claimed;
    forall i | 0 <= i < |resources|
      ensures l.Affords(resources[i], sizes[i]) <==> FindsRoom(l, resources[i], sizes[i])
    {
      assert sizes[i] % TWO64 == sizes[i];
    }
    forall r
      ensures r in ChargeAll(l.held, resources, sizes) <==> r in l.held || r in resources
      ensures r in ChargeAll(l.held, resources, sizes) ==>
        ChargeAll(l.held, resources, sizes)[r] == Added(l, resources, sizes, r)
    {
      ChargedTotals(l.held, resources, sizes, r);
    }
  }

  // ----- the broker object -----

  class MemoryResourceBroker {
    const defaultCap: u64
    var caps: map<u64, u64>
    var held: map<u64, u64>
    var failAfter: int

    ghost function View(): Ledger
      reads this
    {
      Ledger(defaultCap, caps, held, failAfter)
    }

    constructor (defaultCap: u64)
      ensures View() == Ledger(defaultCap, map[], map[], -1)
    {
      this.defaultCap := defaultCap;
      caps, held, failAfter := map[], map[], -1;
    }

    method TryAcquire(resources: seq<u64>, sizes: seq<u64>) returns (ok: bool)
      requires |resources| == |sizes|
      modifies this`held, this`failAfter
      ensures (View(), ok) == Acquire(old(View()), resources, sizes)
    {
      if failAfter == 0 { return false; }
      if failAfter > 0 { failAfter := failAfter - 1; }
      for i := 0 to |resources|
        invariant held == old(held) && failAfter == Armed(old(View())).failAfter
        invariant forall j :: 0 <= j < i ==> old(View()).Affords(resources[j], sizes[j])
      {
        var cap := if resources[i] in caps then caps[resources[i]] else defaultCap;
        if resources[i] in held && Add64(held[resources[i]], sizes[i]) > cap { return false; }
        if resources[i] !in held && sizes[i] > cap { return false; }
      }
      for i := 0 to |resources|
        invariant failAfter == Armed(old(View())).failAfter
        invariant held == ChargeAll(old(held), resources[..i], sizes[..i])
      {
        assert resources[..i + 1][..i] == resources[..i] && sizes[..i + 1][..i] == sizes[..i];
        held := held[resources[i] := Add64(if resources[i] in held then held[resources[i]] else 0, sizes[i])];
      }
      assert resources[..|resources|] == resources && sizes[..|sizes|] == sizes;
      return true;
    }

    method Free(resources: seq<u64>)
      modifies this`held
      ensures View() == Release(old(View()), resources)
    {
      for i := 0 to |resources|
        invariant held == map r | r in old(held) && r !in resources[..i] :: old(held)[r]
      {
        held := held - {resources[i]};
      }
      assert resources[..|resources|] == resources;
    }
  }
}
