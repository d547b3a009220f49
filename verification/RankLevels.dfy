/** The order of the ranking, level by level, on what a candidate shows: its total, its labels, its figures and
    its links. */
module RankLevels {
  import opened Core
  import opened Model
  import opened Ranking

  // ----- what a candidate shows -----

  /** What the total counts as: an infinite one as 10^18. */
  function Price(r: Rankable): Double {
    if r.cost.total.Fin? then r.cost.total else Fin(1_000_000_000_000_000_000.0)
  }

  /** The components whose provenance is unknown. */
  ghost function Unknowns(cs: seq<CostComponent<Double>>): set<nat> {
    set k: nat | k < |cs| && cs[k].provenance == UnknownProvenance
  }

  /** Provenances, most trusted first. */
  const BY_TRUST: seq<Provenance> := [
    Measured, Reported, Derived, Estimated, Forecast, Synthetic, UnknownProvenance ]

  /** Every component carries one of the `n` most trusted labels. */
  ghost predicate Trusts(cs: seq<CostComponent<Double>>, n: nat)
    requires n <= 7
  {
    forall c :: c in cs ==> c.provenance in BY_TRUST[..n]
  }

  ghost predicate MoreTrusted(a: seq<CostComponent<Double>>, b: seq<CostComponent<Double>>) {
    exists n :: 1 <= n <= 7 && Trusts(a, n) && !Trusts(b, n)
  }

  ghost predicate AsTrusted(a: seq<CostComponent<Double>>, b: seq<CostComponent<Double>>) {
    forall n :: 1 <= n <= 7 ==> (Trusts(a, n) <==> Trusts(b, n))
  }

  /** The figure of the first component with this factor, or the default if there is none. */
  ghost predicate Shows(cs: seq<CostComponent<Double>>, f: CostFactor, default: real, x: real) {
    || (x == default && forall c :: c in cs ==> c.factor != f)
    || exists k :: FirstAt(cs, f, x, k)
  }

  ghost predicate FirstAt(cs: seq<CostComponent<Double>>, f: CostFactor, x: real, k: nat) {
    k < |cs| && cs[k].factor == f && cs[k].value == Fin(x) && forall j :: 0 <= j < k ==> cs[j].factor != f
  }

  ghost predicate Less(a: Rankable, b: Rankable, f: CostFactor) {
    exists x, y :: && Shows(a.cost.components, f, Default(a, f), x) && Shows(b.cost.components, f, Default(b, f), y)
                   && x < y
  }

  ghost predicate Same(a: Rankable, b: Rankable, f: CostFactor) {
    exists x :: Shows(a.cost.components, f, Default(a, f), x) && Shows(b.cost.components, f, Default(b, f), x)
  }

  function Default(r: Rankable, f: CostFactor): real { if f == CostFactor.HopCount then |r.path.hops| as real else 0.0 }

  /** Of two equally long paths, `p` has the smaller link id where they first part. */
  ghost predicate PartsLower(p: seq<Hop>, q: seq<Hop>) {
    && |p| == |q|
    && exists k :: && 0 <= k < |p| && p[k].link < q[k].link
                   && forall j :: 0 <= j < k ==> p[j].link == q[j].link
  }

  // ----- the eight levels -----

  ghost predicate Cheaper(a: Rankable, b: Rankable) { Price(a).Fin? && Price(b).Fin? && Price(a).r < Price(b).r }

  ghost predicate FewerUnknowns(a: Rankable, b: Rankable) {
    Price(a) == Price(b) && |Unknowns(a.cost.components)| < |Unknowns(b.cost.components)|
  }

  ghost predicate TiedOnUnknowns(a: Rankable, b: Rankable) {
    Price(a) == Price(b) && |Unknowns(a.cost.components)| == |Unknowns(b.cost.components)|
  }

  ghost predicate BetterLabelled(a: Rankable, b: Rankable) {
    TiedOnUnknowns(a, b) && MoreTrusted(a.cost.components, b.cost.components)
  }

  ghost predicate TiedOnLabels(a: Rankable, b: Rankable) {
    TiedOnUnknowns(a, b) && AsTrusted(a.cost.components, b.cost.components)
  }

  ghost predicate Shorter(a: Rankable, b: Rankable) { TiedOnLabels(a, b) && Less(a, b, CostFactor.HopCount) }

  ghost predicate TiedOnHops(a: Rankable, b: Rankable) { TiedOnLabels(a, b) && Same(a, b, CostFactor.HopCount) }

  ghost predicate LessCongested(a: Rankable, b: Rankable) { TiedOnHops(a, b) && Less(a, b, CongestionPenalty) }

  ghost predicate TiedOnCongestion(a: Rankable, b: Rankable) { TiedOnHops(a, b) && Same(a, b, CongestionPenalty) }

  ghost predicate MoreResidual(a: Rankable, b: Rankable) { TiedOnCongestion(a, b) && Less(b, a, ResidualBandwidth) }

  ghost predicate TiedOnFigures(a: Rankable, b: Rankable) { TiedOnCongestion(a, b) && Same(a, b, ResidualBandwidth) }

  ghost predicate FewerLinks(a: Rankable, b: Rankable) { TiedOnFigures(a, b) && |a.path.hops| < |b.path.hops| }

  ghost predicate LowerIds(a: Rankable, b: Rankable) { TiedOnFigures(a, b) && PartsLower(a.path.hops, b.path.hops) }

  /** `a` is ahead at the first level at which the two differ. */
  ghost predicate Ahead(a: Rankable, b: Rankable) {
    || Cheaper(a, b) || FewerUnknowns(a, b) || BetterLabelled(a, b) || Shorter(a, b) || LessCongested(a, b)
    || MoreResidual(a, b) || FewerLinks(a, b) || LowerIds(a, b)
  }

  // ----- each ingredient of the key -----

  lemma {:induction false} CountIsCardinality(cs: seq<CostComponent<Double>>)
    ensures UncertaintyCount(cs) == |Unknowns(cs)|
  {
    if cs != [] {
      var front, last := cs[..|cs| - 1], cs[|cs| - 1];
      CountIsCardinality(front);
      assert Unknowns(cs) == Unknowns(front) + if last.provenance == UnknownProvenance then {|cs| - 1} else {};
    } else {
      assert Unknowns(cs) == {};
    }
  }

  lemma RankIsPlace(p: Provenance, n: nat)
    requires 1 <= n <= 7
    ensures p in BY_TRUST[..n] <==> ProvenanceRank(p) < n
  {
    assert BY_TRUST[ProvenanceRank(p)] == p;
    if ProvenanceRank(p) < n { assert BY_TRUST[..n][ProvenanceRank(p)] == p; }
    if p in BY_TRUST[..n] {
      var i :| 0 <= i < n && BY_TRUST[..n][i] == p;
      assert ProvenanceRank(BY_TRUST[i]) == i;
    }
  }

  lemma TrustsIff(cs: seq<CostComponent<Double>>, n: nat)
    requires 1 <= n <= 7
    ensures Trusts(cs, n) <==> ProvenanceRank(WorstProvenance(cs)) < n
  {
    hide ProvenanceRank, WorstProvenance;
    forall c | c in cs ensures c.provenance in BY_TRUST[..n] <==> ProvenanceRank(c.provenance) < n {
      RankIsPlace(c.provenance, n);
    }
    MeasuredFirst(WorstProvenance(cs));
  }

  lemma MeasuredFirst(p: Provenance)
    ensures p == Measured ==> ProvenanceRank(p) == 0
    ensures ProvenanceRank(p) <= 6
  {
  }

  lemma TrustOrder(a: seq<CostComponent<Double>>, b: seq<CostComponent<Double>>)
    ensures MoreTrusted(a, b) <==> ProvenanceRank(WorstProvenance(a)) < ProvenanceRank(WorstProvenance(b))
    ensures AsTrusted(a, b) <==> ProvenanceRank(WorstProvenance(a)) == ProvenanceRank(WorstProvenance(b))
  {
    hide ProvenanceRank, WorstProvenance, Trusts;
    var p, q := ProvenanceRank(WorstProvenance(a)), ProvenanceRank(WorstProvenance(b));
    MeasuredFirst(WorstProvenance(a));
    MeasuredFirst(WorstProvenance(b));
    forall n | 1 <= n <= 7 ensures (Trusts(a, n) <==> p < n) && (Trusts(b, n) <==> q < n) {
      TrustsIff(a, n);
      TrustsIff(b, n);
    }
    if p < q { assert Trusts(a, p + 1) && !Trusts(b, p + 1); }
    if q < p { assert Trusts(b, q + 1) && !Trusts(a, q + 1); }
  }

  lemma {:induction false} ValueIsShown(cs: seq<CostComponent<Double>>, f: CostFactor, default: real, x: real)
    ensures ComponentValue(cs, f, Fin(default)) == Fin(x) <==> Shows(cs, f, default, x)
  {
    if cs != [] {
      if cs[0].factor == f {
        assert cs[0] in cs && (FirstAt(cs, f, x, 0) <==> cs[0].value == Fin(x));
      } else {
        ValueIsShown(cs[1..], f, default, x);
        ShowsTail(cs, f, default, x);
      }
    }
  }

  lemma FirstAtTail(cs: seq<CostComponent<Double>>, f: CostFactor, x: real, k: nat)
    requires cs != [] && cs[0].factor != f
    ensures FirstAt(cs, f, x, k + 1) <==> FirstAt(cs[1..], f, x, k)
    ensures !FirstAt(cs, f, x, 0)
  {
    assert forall j :: 0 <= j < |cs| - 1 ==> cs[1..][j] == cs[j + 1];
    if FirstAt(cs[1..], f, x, k) {
      assert forall j :: 0 < j < |cs| ==> cs[j] == cs[1..][j - 1];
    }
  }

  lemma ShowsTail(cs: seq<CostComponent<Double>>, f: CostFactor, default: real, x: real)
    requires cs != [] && cs[0].factor != f
    ensures Shows(cs, f, default, x) <==> Shows(cs[1..], f, default, x)
  {
    hide FirstAt;
    assert cs == [cs[0]] + cs[1..];
    FirstAtTail(cs, f, x, 0);
    if k: nat :| FirstAt(cs, f, x, k) {
      FirstAtTail(cs, f, x, k - 1);
    }
    if k: nat :| FirstAt(cs[1..], f, x, k) {
      FirstAtTail(cs, f, x, k);
    }
  }

  lemma FigureOrder(a: Rankable, b: Rankable, f: CostFactor)
    requires ComponentValue(a.cost.components, f, Fin(Default(a, f))).Fin?
    requires ComponentValue(b.cost.components, f, Fin(Default(b, f))).Fin?
    ensures var x := ComponentValue(a.cost.components, f, Fin(Default(a, f)));
      var y := ComponentValue(b.cost.components, f, Fin(Default(b, f)));
      (Less(a, b, f) <==> x.r < y.r) && (Same(a, b, f) <==> x == y)
  {
    hide ComponentValue, Shows;
    forall x: real ensures ComponentValue(a.cost.components, f, Fin(Default(a, f))) == Fin(x)
                           <==> Shows(a.cost.components, f, Default(a, f), x) {
      ValueIsShown(a.cost.components, f, Default(a, f), x);
    }
    forall x: real ensures ComponentValue(b.cost.components, f, Fin(Default(b, f))) == Fin(x)
                           <==> Shows(b.cost.components, f, Default(b, f), x) {
      ValueIsShown(b.cost.components, f, Default(b, f), x);
    }
    var x := ComponentValue(a.cost.components, f, Fin(Default(a, f)));
    var y := ComponentValue(b.cost.components, f, Fin(Default(b, f)));
    assert Shows(a.cost.components, f, Default(a, f), x.r) && Shows(b.cost.components, f, Default(b, f), y.r);
  }

  lemma {:induction false} LexIsFirstParting(p: seq<Hop>, q: seq<Hop>)
    requires |p| == |q|
    ensures LexLess(LinkIds(p), LinkIds(q)) <==> PartsLower(p, q)
  {
    if p != [] {
      assert LinkIds(p)[1..] == LinkIds(p[1..]) && LinkIds(q)[1..] == LinkIds(q[1..]);
      LexIsFirstParting(p[1..], q[1..]);
      PartsTail(p, q);
    }
  }

  lemma PartsTail(p: seq<Hop>, q: seq<Hop>)
    requires |p| == |q| > 0
    ensures PartsLower(p, q) <==> p[0].link < q[0].link || (p[0].link == q[0].link && PartsLower(p[1..], q[1..]))
  {
    if p[0].link == q[0].link {
      if k :| 0 <= k < |p| && p[k].link < q[k].link && forall j :: 0 <= j < k ==> p[j].link == q[j].link {
        assert p[1..][k - 1] == p[k] && q[1..][k - 1] == q[k];
        assert forall j :: 0 <= j < k - 1 ==> p[1..][j] == p[j + 1] && q[1..][j] == q[j + 1];
      }
      if k :| && 0 <= k < |p| - 1 && p[1..][k].link < q[1..][k].link
              && forall j :: 0 <= j < k ==> p[1..][j].link == q[1..][j].link {
        assert forall j :: 1 <= j <= k ==> p[j] == p[1..][j - 1] && q[j] == q[1..][j - 1];
      }
    }
  }

  lemma UnequalDoNotPart(p: seq<Hop>, q: seq<Hop>)
    requires |p| != |q|
    ensures !PartsLower(p, q)
  {
  }

  // ----- the ranking -----

  /** The candidate shows numbers, not NaN or an infinity, wherever the ranking looks. */
  ghost predicate ShowsNumbers(r: Rankable) {
    && ComponentValue(r.cost.components, CostFactor.HopCount, Fin(Default(r, CostFactor.HopCount))).Fin?
    && ComponentValue(r.cost.components, CongestionPenalty, Fin(0.0)).Fin?
    && ComponentValue(r.cost.components, ResidualBandwidth, Fin(0.0)).Fin?
  }

  /** The key compares what the candidates show. */
  lemma KeyOrder(a: Rankable, b: Rankable)
    requires ShowsNumbers(a) && ShowsNumbers(b)
    ensures KeyLess(KeyOf(a.path, a.cost), KeyOf(b.path, b.cost)) <==> Ahead(a, b)
  {
    hide ComponentValue, UncertaintyCount, WorstProvenance, ProvenanceRank, Less, Same, Unknowns, MoreTrusted,
      AsTrusted, PartsLower, LexLess;
    CountIsCardinality(a.cost.components);
    CountIsCardinality(b.cost.components);
    TrustOrder(a.cost.components, b.cost.components);
    FigureOrder(a, b, CostFactor.HopCount);
    FigureOrder(a, b, CongestionPenalty);
    FigureOrder(a, b, ResidualBandwidth);
    FigureOrder(b, a, ResidualBandwidth);
    if |a.path.hops| == |b.path.hops| {
      LexIsFirstParting(a.path.hops, b.path.hops);
    } else {
      UnequalDoNotPart(a.path.hops, b.path.hops);
    }
  }

  /** The ranking lists candidate `i` before candidate `j`. */
  ghost predicate Before(input: seq<Rankable>, i: nat, j: nat) {
    exists p, q :: 0 <= p < q < |RankOrder(input)| && RankOrder(input)[p] == i && RankOrder(input)[q] == j
  }

  ghost predicate AllShowNumbers(input: seq<Rankable>) {
    forall r :: r in input ==> ShowsNumbers(r)
  }

  lemma NumbersAreNanFree(input: seq<Rankable>)
    requires AllShowNumbers(input)
    ensures NanFreeInput(input)
  {
    hide ComponentValue, UncertaintyCount, WorstProvenance, ProvenanceRank;
    forall i | 0 <= i < |input| ensures NanFree(KeyAt(input, i)) {
      assert input[i] in input;
    }
  }

  /** A feasible candidate that is ahead of another is listed before it; and of two feasible candidates over
      different links one is ahead, so the other way round too. */
  lemma AheadIsBefore(input: seq<Rankable>, i: nat, j: nat)
    requires AllShowNumbers(input) && Ranked(input, i) && Ranked(input, j)
    ensures Ahead(input[i], input[j]) ==> Before(input, i, j)
    ensures LinkIds(input[i].path.hops) != LinkIds(input[j].path.hops) ==>
      (Before(input, i, j) <==> Ahead(input[i], input[j]))
  {
    hide KeyOf, KeyLess, NanFree, RankOrder, Ahead, ShowsNumbers;
    NumbersAreNanFree(input);
    assert input[i] in input && input[j] in input;
    KeyOrder(input[i], input[j]);
    KeyOrder(input[j], input[i]);
    KeyLessIsTotal(KeyAt(input, i), KeyAt(input, j));
    RankingIsOrdered(input);
    RankingSelectsTheFeasible(input);
    var r := RankOrder(input);
    assert i in r && j in r;
    var p :| 0 <= p < |r| && r[p] == i;
    var q :| 0 <= q < |r| && r[q] == j;
    if KeyLess(KeyAt(input, i), KeyAt(input, j)) {
      assert Beats(input, i, j) && p != q;
      assert !(q < p);
    }
    if LinkIds(input[i].path.hops) != LinkIds(input[j].path.hops) {
      KeysDifferByLinks(input[i], input[j]);
      if Before(input, i, j) {
        var p', q' :| 0 <= p' < q' < |r| && r[p'] == i && r[q'] == j;
        assert !Beats(input, r[q'], r[p']);
      }
    }
  }

  lemma KeysDifferByLinks(a: Rankable, b: Rankable)
    requires LinkIds(a.path.hops) != LinkIds(b.path.hops)
    ensures KeyOf(a.path, a.cost) != KeyOf(b.path, b.cost)
  {
    hide ComponentValue, UncertaintyCount, WorstProvenance, ProvenanceRank;
  }

  // ----- level by level -----

  /** The cheaper candidate comes first. */
  lemma CheaperFirst(input: seq<Rankable>, i: nat, j: nat)
    requires AllShowNumbers(input) && Ranked(input, i) && Ranked(input, j)
    requires Price(input[i]).r < Price(input[j]).r
    ensures Before(input, i, j)
  {
    hide ShowsNumbers, FewerUnknowns, BetterLabelled, Shorter, LessCongested, MoreResidual, FewerLinks, LowerIds;
    AheadIsBefore(input, i, j);
  }

  /** At equal totals, the one with fewer components of unknown provenance. */
  lemma FewerUnknownsFirst(input: seq<Rankable>, i: nat, j: nat)
    requires AllShowNumbers(input) && Ranked(input, i) && Ranked(input, j)
    requires Price(input[i]) == Price(input[j])
    requires |Unknowns(input[i].cost.components)| < |Unknowns(input[j].cost.components)|
    ensures Before(input, i, j)
  {
    hide ShowsNumbers, Cheaper, BetterLabelled, Shorter, LessCongested, MoreResidual, FewerLinks, LowerIds;
    AheadIsBefore(input, i, j);
  }

  /** Then the one whose least trusted label is the more trusted. */
  lemma BetterLabelledFirst(input: seq<Rankable>, i: nat, j: nat)
    requires AllShowNumbers(input) && Ranked(input, i) && Ranked(input, j)
    requires TiedOnUnknowns(input[i], input[j]) && MoreTrusted(input[i].cost.components, input[j].cost.components)
    ensures Before(input, i, j)
  {
    hide ShowsNumbers, Cheaper, FewerUnknowns, Shorter, LessCongested, MoreResidual, FewerLinks, LowerIds;
    AheadIsBefore(input, i, j);
  }

  /** Then the one with fewer hops. */
  lemma ShorterFirst(input: seq<Rankable>, i: nat, j: nat)
    requires AllShowNumbers(input) && Ranked(input, i) && Ranked(input, j)
    requires TiedOnLabels(input[i], input[j]) && Less(input[i], input[j], CostFactor.HopCount)
    ensures Before(input, i, j)
  {
    hide ShowsNumbers, Cheaper, FewerUnknowns, BetterLabelled, LessCongested, MoreResidual, FewerLinks, LowerIds;
    AheadIsBefore(input, i, j);
  }

  /** Then the less congested one. */
  lemma LessCongestedFirst(input: seq<Rankable>, i: nat, j: nat)
    requires AllShowNumbers(input) && Ranked(input, i) && Ranked(input, j)
    requires TiedOnHops(input[i], input[j]) && Less(input[i], input[j], CongestionPenalty)
    ensures Before(input, i, j)
  {
    hide ShowsNumbers, Cheaper, FewerUnknowns, BetterLabelled, Shorter, MoreResidual, FewerLinks, LowerIds;
    AheadIsBefore(input, i, j);
  }

  /** Then the one with the larger residual-bandwidth figure. */
  lemma MoreResidualFirst(input: seq<Rankable>, i: nat, j: nat)
    requires AllShowNumbers(input) && Ranked(input, i) && Ranked(input, j)
    requires TiedOnCongestion(input[i], input[j]) && Less(input[j], input[i], ResidualBandwidth)
    ensures Before(input, i, j)
  {
    hide ShowsNumbers, Cheaper, FewerUnknowns, BetterLabelled, Shorter, LessCongested, FewerLinks, LowerIds;
    AheadIsBefore(input, i, j);
  }

  /** Then the one over fewer links. */
  lemma FewerLinksFirst(input: seq<Rankable>, i: nat, j: nat)
    requires AllShowNumbers(input) && Ranked(input, i) && Ranked(input, j)
    requires TiedOnFigures(input[i], input[j]) && |input[i].path.hops| < |input[j].path.hops|
    ensures Before(input, i, j)
  {
    hide ShowsNumbers, Cheaper, FewerUnknowns, BetterLabelled, Shorter, LessCongested, MoreResidual, LowerIds;
    AheadIsBefore(input, i, j);
  }

  /** And last, of two equally long ones, the one with the smaller link id where they first part. */
  lemma LowerIdsFirst(input: seq<Rankable>, i: nat, j: nat)
    requires AllShowNumbers(input) && Ranked(input, i) && Ranked(input, j)
    requires TiedOnFigures(input[i], input[j]) && PartsLower(input[i].path.hops, input[j].path.hops)
    ensures Before(input, i, j)
  {
    hide ShowsNumbers, Cheaper, FewerUnknowns, BetterLabelled, Shorter, LessCongested, MoreResidual, FewerLinks;
    AheadIsBefore(input, i, j);
  }
}
