/** src/ranking.cpp: the eight-level key, the stable sort, and why its head does not depend on the
    order of the input. */
module Ranking {
  import opened Core
  import opened Model
  import opened Sorting
  import opened Cost

  datatype Rankable = Rankable(path: CandidatePath, feasibility: Feasibility, cost: CostSummary<Double>)

  function ProvenanceRank(p: Provenance): nat {
    match p
    case Measured => 0
    case Reported => 1
    case Derived => 2
    case Estimated => 3
    case Forecast => 4
    case Synthetic => 5
    case UnknownProvenance => 6
  }

  /** `worstProvenance`: the least trustworthy label, starting from MEASURED. */
  method WorstProvenanceOf(cs: seq<CostComponent<Double>>) returns (worst: Provenance)
    ensures worst == WorstProvenance(cs)
  {
    worst := Measured;
    for i := 0 to |cs|
      invariant worst == WorstProvenance(cs[..i])
    {
      assert cs[..i + 1][..i] == cs[..i];
      if ProvenanceRank(cs[i].provenance) > ProvenanceRank(worst) { worst := cs[i].provenance; }
    }
    assert cs[..|cs|] == cs;
  }

  function WorstProvenance(cs: seq<CostComponent<Double>>): (worst: Provenance)
    ensures forall c :: c in cs ==> ProvenanceRank(c.provenance) <= ProvenanceRank(worst)
    ensures worst.Measured? || exists c :: c in cs && c.provenance == worst
  {
    if cs == [] then Measured
    else
      var rest, last := WorstProvenance(cs[..|cs| - 1]), cs[|cs| - 1];
      assert last in cs && cs == cs[..|cs| - 1] + [last];
      if ProvenanceRank(last.provenance) > ProvenanceRank(rest) then last.provenance else rest
  }

  function UncertaintyCount(cs: seq<CostComponent<Double>>): nat {
    if cs == [] then 0
    else UncertaintyCount(cs[..|cs| - 1]) + if cs[|cs| - 1].provenance.UnknownProvenance? then 1 else 0
  }

  /** The value of the first component with this factor. */
  function ComponentValue(cs: seq<CostComponent<Double>>, f: CostFactor, default: Double): Double {
    if cs == [] then default
    else if cs[0].factor == f then cs[0].value
    else ComponentValue(cs[1..], f, default)
  }

  datatype Key = Key(
    total: Double, uncertainty: nat, provenance: nat, hops: Double, congestion: Double, residual: Double,
    ids: seq<u64>)

  function LinkIds(hops: seq<Hop>): (ids: seq<u64>)
    ensures |ids| == |hops| && forall i :: 0 <= i < |ids| ==> ids[i] == hops[i].link
  {
    seq(|hops|, i requires 0 <= i < |hops| => hops[i].link)
  }

  function KeyOf(path: CandidatePath, cost: CostSummary<Double>): Key {
    Key(if cost.total.Finite() then cost.total else Fin(MAX_COST),
        UncertaintyCount(cost.components),
        ProvenanceRank(WorstProvenance(cost.components)),
        ComponentValue(cost.components, HopCount, Fin(|path.hops| as real)),
        ComponentValue(cost.components, CongestionPenalty, Fin(0.0)),
        ComponentValue(cost.components, ResidualBandwidth, Fin(0.0)),
        LinkIds(path.hops))
  }

  predicate LexLess(a: seq<u64>, b: seq<u64>) {
    b != [] && (a == [] || a[0] < b[0] || (a[0] == b[0] && LexLess(a[1..], b[1..])))
  }

  predicate KeyLess(a: Key, b: Key) {
    if a.total.Ne(b.total) then a.total.Lt(b.total)
    else if a.uncertainty != b.uncertainty then a.uncertainty < b.uncertainty
    else if a.provenance != b.provenance then a.provenance < b.provenance
    else if a.hops.Ne(b.hops) then a.hops.Lt(b.hops)
    else if a.congestion.Ne(b.congestion) then a.congestion.Lt(b.congestion)
    else if a.residual.Ne(b.residual) then b.residual.Lt(a.residual)
    else if |a.ids| != |b.ids| then |a.ids| < |b.ids|
    else LexLess(a.ids, b.ids)
  }

  predicate NanFree(k: Key) {
    !k.total.NaN? && !k.hops.NaN? && !k.congestion.NaN? && !k.residual.NaN?
  }

  // ----- KeyLess is a strict total order on NaN-free keys -----

  lemma {:induction false} LexLessIsTotal(a: seq<u64>, b: seq<u64>)
    ensures !(LexLess(a, b) && LexLess(b, a))
    ensures a != b ==> LexLess(a, b) || LexLess(b, a)
    ensures !LexLess(a, a)
    decreases |a|
  {
    if a != [] {
      LexLessIsTotal(a[1..], if b == [] then [] else b[1..]);
      if b != [] && a[0] == b[0] && a != b {
        assert a == [a[0]] + a[1..] && b == [b[0]] + b[1..];
      }
    }
  }

  lemma {:induction false} LexLessIsTransitive(a: seq<u64>, b: seq<u64>, c: seq<u64>)
    requires LexLess(a, b) && LexLess(b, c)
    ensures LexLess(a, c)
    decreases |a|
  {
    if a != [] && a[0] == b[0] == c[0] {
      LexLessIsTransitive(a[1..], b[1..], c[1..]);
    }
  }

  lemma KeyLessIsTotal(a: Key, b: Key)
    requires NanFree(a) && NanFree(b)
    ensures !(KeyLess(a, b) && KeyLess(b, a))
    ensures a != b ==> KeyLess(a, b) || KeyLess(b, a)
  {
    LexLessIsTotal(a.ids, b.ids);
  }

  lemma KeyLessIsTransitive(a: Key, b: Key, c: Key)
    requires NanFree(a) && NanFree(b) && NanFree(c)
    requires KeyLess(a, b) && KeyLess(b, c)
    ensures KeyLess(a, c)
  {
    if LexLess(a.ids, b.ids) && LexLess(b.ids, c.ids) {
      LexLessIsTransitive(a.ids, b.ids, c.ids);
    }
  }

  // ----- rankFeasible -----

  datatype Item = Item(index: nat, key: Key)

  predicate ItemLess(a: Item, b: Item) { KeyLess(a.key, b.key) }

  function Items(input: seq<Rankable>): seq<Item> {
    if input == [] then []
    else
      var last := input[|input| - 1];
      Items(input[..|input| - 1])
      + if last.feasibility.Feasible? then [Item(|input| - 1, KeyOf(last.path, last.cost))] else []
  }

  function Indices(items: seq<Item>): (r: seq<nat>)
    ensures |r| == |items| && forall i :: 0 <= i < |r| ==> r[i] == items[i].index
  {
    seq(|items|, i requires 0 <= i < |items| => items[i].index)
  }

  function RankOrder(input: seq<Rankable>): seq<nat> {
    Indices(Sort(ItemLess, Items(input)))
  }

  method RankFeasible(input: seq<Rankable>) returns (order: seq<nat>)
    ensures order == RankOrder(input)
  {
    var items: seq<Item> := [];
    for i := 0 to |input|
      invariant items == Items(input[..i])
    {
      assert input[..i + 1][..i] == input[..i];
      if input[i].feasibility.Feasible? {
        items := items + [Item(i, KeyOf(input[i].path, input[i].cost))];
      }
    }
    assert input[..|input|] == input;
    var sorted := Sort(ItemLess, items);
    order := [];
    for i := 0 to |sorted|
      invariant |order| == i && forall j :: 0 <= j < i ==> order[j] == sorted[j].index
    {
      order := order + [sorted[i].index];
    }
    assert order == Indices(sorted);
  }

  ghost predicate Ranked(input: seq<Rankable>, i: nat) {
    i < |input| && input[i].feasibility.Feasible?
  }

  function KeyAt(input: seq<Rankable>, i: nat): Key
    requires i < |input|
  {
    KeyOf(input[i].path, input[i].cost)
  }

  lemma {:induction false} ItemsAreTheFeasible(input: seq<Rankable>)
    ensures forall it :: it in Items(input) <==> Ranked(input, it.index) && it.key == KeyAt(input, it.index)
    ensures forall i, j :: 0 <= i < j < |Items(input)| ==> Items(input)[i].index < Items(input)[j].index
  {
    hide KeyOf;
    if input != [] {
      ItemsAreTheFeasible(input[..|input| - 1]);
      var front := Items(input[..|input| - 1]);
      assert forall i :: 0 <= i < |front| ==> front[i] in front && front[i].index < |input| - 1;
    }
  }

  ghost predicate NanFreeInput(input: seq<Rankable>) {
    forall i :: 0 <= i < |input| ==> NanFree(KeyAt(input, i))
  }

  ghost predicate DistinctLinkIds(input: seq<Rankable>) {
    forall i, j :: 0 <= i < j < |input| ==> LinkIds(input[i].path.hops) != LinkIds(input[j].path.hops)
  }

  /** Candidate `i` ranks strictly before candidate `j`. */
  ghost predicate Beats(input: seq<Rankable>, i: nat, j: nat) {
    i < |input| && j < |input| && KeyLess(KeyAt(input, i), KeyAt(input, j))
  }

  /** The sorted items, whose indices are the ranking. */
  function SortedItems(input: seq<Rankable>): seq<Item> { Sort(ItemLess, Items(input)) }

  lemma SortedItemsAreTheFeasible(input: seq<Rankable>, it: Item)
    ensures it in SortedItems(input) <==> Ranked(input, it.index) && it.key == KeyAt(input, it.index)
  {
    hide Items, Sort, ItemLess, KeyAt;
    SortHasTheElements(ItemLess, Items(input), it);
    ItemsAreTheFeasible(input);
  }

  lemma SortedItemsAreDistinct(input: seq<Rankable>)
    ensures Distinct(SortedItems(input))
  {
    hide Items, Sort, ItemLess, KeyAt;
    ItemsAreTheFeasible(input);
    SortKeepsElements(ItemLess, Items(input));
    DistinctSurvivesRearrangement(Items(input), SortedItems(input));
  }

  lemma ItemAt(input: seq<Rankable>, p: nat)
    requires p < |RankOrder(input)|
    ensures |SortedItems(input)| == |RankOrder(input)|
    ensures var i := RankOrder(input)[p]; Ranked(input, i) && SortedItems(input)[p] == Item(i, KeyAt(input, i))
  {
    hide Items, Sort, ItemLess, KeyAt;
    assert SortedItems(input)[p] in SortedItems(input);
    SortedItemsAreTheFeasible(input, SortedItems(input)[p]);
  }

  lemma RankingIsDistinct(input: seq<Rankable>)
    ensures Distinct(RankOrder(input))
  {
    hide SortedItems, RankOrder, KeyAt, Ranked;
    var r := RankOrder(input);
    SortedItemsAreDistinct(input);
    forall p, q | 0 <= p < q < |r| ensures r[p] != r[q] {
      ItemAt(input, p);
      ItemAt(input, q);
      assert SortedItems(input)[p] != SortedItems(input)[q];
    }
  }

  lemma RankedIsListed(input: seq<Rankable>, i: nat)
    requires Ranked(input, i)
    ensures i in RankOrder(input)
  {
    hide Items, Sort, ItemLess, KeyAt;
    var it := Item(i, KeyAt(input, i));
    SortedItemsAreTheFeasible(input, it);
    var p :| 0 <= p < |SortedItems(input)| && SortedItems(input)[p] == it;
    assert RankOrder(input)[p] == i;
  }

  /** `rankFeasible` returns every feasible index once and nothing else. */
  lemma RankingSelectsTheFeasible(input: seq<Rankable>)
    ensures Distinct(RankOrder(input))
    ensures forall i :: i in RankOrder(input) <==> Ranked(input, i)
  {
    hide RankOrder, Ranked, SortedItems;
    RankingIsDistinct(input);
    forall i: nat ensures i in RankOrder(input) <==> Ranked(input, i) {
      if i in RankOrder(input) {
        var p :| 0 <= p < |RankOrder(input)| && RankOrder(input)[p] == i;
        ItemAt(input, p);
      }
      if Ranked(input, i) { RankedIsListed(input, i); }
    }
  }

  /** It lists them best first, strictly so when no two have the same link sequence. */
  lemma RankingIsOrdered(input: seq<Rankable>)
    requires NanFreeInput(input)
    ensures forall p, q :: 0 <= p < q < |RankOrder(input)| ==> !Beats(input, RankOrder(input)[q], RankOrder(input)[p])
    ensures DistinctLinkIds(input) ==>
      forall p, q :: 0 <= p < q < |RankOrder(input)| ==> Beats(input, RankOrder(input)[p], RankOrder(input)[q])
  {
    hide Items, Sort, KeyAt, KeyLess, NanFree, RankOrder, SortedItems;
    var r, sorted := RankOrder(input), SortedItems(input);
    RankingIsDistinct(input);
    SortedItemsAreOrdered(input);
    forall p, q | 0 <= p < q < |r|
      ensures !Beats(input, r[q], r[p])
      ensures DistinctLinkIds(input) ==> Beats(input, r[p], r[q])
    {
      ItemAt(input, p);
      ItemAt(input, q);
      assert !ItemLess(sorted[q], sorted[p]);
      if DistinctLinkIds(input) {
        KeysDiffer(input, r[p], r[q]);
        KeyLessIsTotal(KeyAt(input, r[p]), KeyAt(input, r[q]));
      }
    }
  }

  lemma SortedItemsAreOrdered(input: seq<Rankable>)
    requires NanFreeInput(input)
    ensures Ordered(ItemLess, SortedItems(input))
  {
    hide Items, Sort, KeyAt, ItemLess, NanFree;
    ItemsAreTheFeasible(input);
    ItemOrderIsStrictWeak(Items(input));
    SortOrders(ItemLess, Items(input));
  }

  lemma KeysDiffer(input: seq<Rankable>, i: nat, j: nat)
    requires DistinctLinkIds(input) && i < |input| && j < |input| && i != j
    ensures KeyAt(input, i) != KeyAt(input, j)
  {
    assert KeyAt(input, i).ids == LinkIds(input[i].path.hops);
    assert KeyAt(input, j).ids == LinkIds(input[j].path.hops);
  }

  lemma ItemOrderIsStrictWeak(items: seq<Item>)
    requires forall it :: it in items ==> NanFree(it.key)
    ensures StrictWeakOn(ItemLess, items)
  {
    forall a, b | a in items && b in items && ItemLess(a, b) ensures !ItemLess(b, a) {
      KeyLessIsTotal(a.key, b.key);
    }
    forall a, b, c | a in items && b in items && c in items && ItemLess(a, c)
      ensures ItemLess(a, b) || ItemLess(b, c)
    {
      KeyLessIsTotal(a.key, b.key);
      KeyLessIsTotal(b.key, c.key);
      if KeyLess(b.key, a.key) { KeyLessIsTransitive(b.key, a.key, c.key); }
    }
  }

  /** `best` is feasible and ranks strictly before every other feasible candidate. */
  ghost predicate IsBest(input: seq<Rankable>, best: Rankable) {
    && best in input && best.feasibility.Feasible?
    && forall other :: other in input && other.feasibility.Feasible? && other != best ==>
         KeyLess(KeyOf(best.path, best.cost), KeyOf(other.path, other.cost))
  }

  lemma HeadIsBest(input: seq<Rankable>)
    requires NanFreeInput(input) && DistinctLinkIds(input) && RankOrder(input) != []
    ensures RankOrder(input)[0] < |input| && IsBest(input, input[RankOrder(input)[0]])
  {
    RankingSelectsTheFeasible(input);
    RankingIsOrdered(input);
    var r := RankOrder(input);
    assert r[0] in r && Ranked(input, r[0]);
    var best := input[r[0]];
    forall other | other in input && other.feasibility.Feasible? && other != best
      ensures KeyLess(KeyOf(best.path, best.cost), KeyOf(other.path, other.cost))
    {
      var i :| 0 <= i < |input| && input[i] == other;
      assert Ranked(input, i) && i in r;
      var p :| 0 <= p < |r| && r[p] == i;
      assert p != 0 && Beats(input, r[0], r[p]);
    }
  }

  lemma BestIsUnique(input: seq<Rankable>, a: Rankable, b: Rankable)
    requires NanFreeInput(input) && IsBest(input, a) && IsBest(input, b)
    ensures a == b
  {
    var i :| 0 <= i < |input| && input[i] == a;
    var j :| 0 <= j < |input| && input[j] == b;
    assert NanFree(KeyAt(input, i)) && NanFree(KeyAt(input, j));
    KeyLessIsTotal(KeyAt(input, i), KeyAt(input, j));
  }

  /** Two inputs with the same candidates, in whatever order, have the same head. */
  lemma HeadIgnoresInputOrder(s: seq<Rankable>, t: seq<Rankable>)
    requires forall x :: x in s <==> x in t
    requires NanFreeInput(s) && DistinctLinkIds(s) && DistinctLinkIds(t)
    requires RankOrder(s) != []
    ensures RankOrder(t) != [] && RankOrder(s)[0] < |s| && RankOrder(t)[0] < |t|
    ensures s[RankOrder(s)[0]] == t[RankOrder(t)[0]]
  {
    forall j | 0 <= j < |t| ensures NanFree(KeyAt(t, j)) {
      assert t[j] in s;
      var i :| 0 <= i < |s| && s[i] == t[j];
      assert NanFree(KeyAt(s, i));
    }
    HeadIsBest(s);
    var best := s[RankOrder(s)[0]];
    assert best in t;
    var j :| 0 <= j < |t| && t[j] == best;
    RankingSelectsTheFeasible(t);
    assert Ranked(t, j) && j in RankOrder(t);
    HeadIsBest(t);
    BestIsUnique(s, best, t[RankOrder(t)[0]]);
  }
}
