/** Planning does not depend on the order in which evidence was published. */
module Determinism {
  import opened Core
  import opened Model
  import opened Sorting
  import opened Enumeration
  import opened FeasibilityFilter
  import opened Cost
  import opened Planner

  // ----- the enumeration sees only the sorted adjacency -----

  ghost predicate SameEdges(l1: seq<Link>, l2: seq<Link>) {
    forall v :: SortedEdges(l1, v) == SortedEdges(l2, v)
  }

  lemma {:induction false} RoutesSeeEdges(l1: seq<Link>, l2: seq<Link>, dst: u64, b: Bounds, visited: set<u64>,
                                          hops: seq<Hop>, cur: u64)
    requires SameEdges(l1, l2)
    ensures Routes(l1, dst, b, visited, hops, cur) == Routes(l2, dst, b, visited, hops, cur)
    decreases b.maxPathDepth - |hops|, 1, 0
  {
    hide SortedEdges;
    if |hops| < b.maxPathDepth {
      RoutesViaSeeEdges(l1, l2, dst, b, visited, hops, cur, SortedEdges(l1, cur));
    }
  }

  lemma {:induction false} RoutesViaSeeEdges(l1: seq<Link>, l2: seq<Link>, dst: u64, b: Bounds, visited: set<u64>,
                                             hops: seq<Hop>, cur: u64, edges: seq<Adj>)
    requires SameEdges(l1, l2) && |hops| < b.maxPathDepth
    ensures RoutesVia(l1, dst, b, visited, hops, cur, edges) == RoutesVia(l2, dst, b, visited, hops, cur, edges)
    decreases b.maxPathDepth - |hops|, 0, |edges|
  {
    hide SortedEdges;
    if edges != [] {
      var a := edges[0];
      if a.to !in visited && a.to != dst {
        RoutesSeeEdges(l1, l2, dst, b, visited + {a.to}, hops + [Hop(a.link, cur, a.to)], a.to);
      }
      RoutesViaSeeEdges(l1, l2, dst, b, visited, hops, cur, edges[1..]);
    }
  }

  lemma EnumerationSeesEdges(l1: seq<Link>, l2: seq<Link>, src: u64, dst: u64, b: Bounds)
    requires SameEdges(l1, l2)
    ensures Enumerate(l1, src, dst, b) == Enumerate(l2, src, dst, b)
  {
    hide Sort, SameEdges;
    RoutesSeeEdges(l1, l2, dst, b, {src}, [], src);
  }

  // ----- rearranging lists -----

  lemma {:induction false} OutEdgesOfConcat(a: seq<Link>, b: seq<Link>, v: u64)
    ensures OutEdges(a + b, v) == OutEdges(a, v) + OutEdges(b, v)
  {
    if b == [] {
      assert a + b == a;
    } else {
      OutEdgesOfConcat(a, b[..|b| - 1], v);
      assert (a + b)[..|a + b| - 1] == a + b[..|b| - 1];
    }
  }

  lemma {:induction false} SumOfConcat(a: seq<Reservation>, b: seq<Reservation>, resource: u64)
    ensures Sum(a + b, resource) == Sum(a, resource) + Sum(b, resource)
  {
    if b == [] {
      assert a + b == a;
    } else {
      SumOfConcat(a, b[..|b| - 1], resource);
      assert (a + b)[..|a + b| - 1] == a + b[..|b| - 1];
    }
  }

  /** Somewhere in a rearrangement stands the last element of the original. */
  lemma FindLast<T>(s: seq<T>, t: seq<T>) returns (i: nat)
    requires s != [] && multiset(s) == multiset(t)
    ensures i < |t| && t[i] == s[|s| - 1] && t == t[..i] + [t[i]] + t[i + 1..]
    ensures multiset(s[..|s| - 1]) == multiset(t[..i] + t[i + 1..])
  {
    var x := s[|s| - 1];
    assert s == s[..|s| - 1] + [x];
    assert x in multiset(s) && x in multiset(t);
    i :| 0 <= i < |t| && t[i] == x;
    assert t == t[..i] + [t[i]] + t[i + 1..];
    assert multiset(t[..i] + t[i + 1..]) == multiset(t) - multiset{x};
  }

  /** Moving the last link into the middle of the others keeps the multiset of edges. */
  lemma OutEdgesMoved(front: seq<Link>, a: seq<Link>, b: seq<Link>, l: Link, v: u64)
    requires multiset(OutEdges(front, v)) == multiset(OutEdges(a + b, v))
    ensures multiset(OutEdges(front + [l], v)) == multiset(OutEdges(a + [l] + b, v))
  {
    hide OutEdges;
    OutEdgesOfConcat(a, b, v);
    OutEdgesOfConcat(a, [l], v);
    OutEdgesOfConcat(a + [l], b, v);
    OutEdgesOfConcat(front, [l], v);
  }

  lemma {:induction false} OutEdgesRearrange(s: seq<Link>, t: seq<Link>, v: u64)
    requires multiset(s) == multiset(t)
    ensures multiset(OutEdges(s, v)) == multiset(OutEdges(t, v))
    decreases |s|
  {
    hide OutEdges;
    if s == [] {
      assert |multiset(t)| == 0;
      assert t == [];
    } else {
      var i := FindLast(s, t);
      var front, l := s[..|s| - 1], s[|s| - 1];
      OutEdgesRearrange(front, t[..i] + t[i + 1..], v);
      OutEdgesMoved(front, t[..i], t[i + 1..], l, v);
      assert s == front + [l] && t == t[..i] + [l] + t[i + 1..];
    }
  }

  lemma {:induction false} SumRearranges(s: seq<Reservation>, t: seq<Reservation>, resource: u64)
    requires multiset(s) == multiset(t)
    ensures Sum(s, resource) == Sum(t, resource)
    decreases |s|
  {
    if s == [] {
      assert |multiset(t)| == 0;
    } else {
      var i := FindLast(s, t);
      var front, l := s[..|s| - 1], s[|s| - 1];
      SumRearranges(front, t[..i] + t[i + 1..], resource);
      SumOfConcat(t[..i], t[i + 1..], resource);
      SumOfConcat(t[..i], [l], resource);
      SumOfConcat(t[..i] + [l], t[i + 1..], resource);
      SumOfConcat(front, [l], resource);
      assert s == front + [l];
    }
  }

  lemma RearrangedLinksHaveSameEdges(s: seq<Link>, t: seq<Link>)
    requires multiset(s) == multiset(t)
    ensures SameEdges(s, t)
  {
    forall v ensures SortedEdges(s, v) == SortedEdges(t, v) {
      OutEdgesRearrange(s, t, v);
      SortForgetsInputOrder(AdjLess, OutEdges(s, v), OutEdges(t, v));
    }
  }

  lemma RearrangedEndpointsHaveSameMap(s: seq<Endpoint>, t: seq<Endpoint>)
    requires multiset(s) == multiset(t) && UniqueEndpoints(s)
    ensures EndpointMap(s) == EndpointMap(t)
  {
    hide EndpointMap;
    EndpointMapKeys(s);
    EndpointMapKeys(t);
    forall id ensures id in EndpointMap(s) <==> id in EndpointMap(t) {
      if id in EndpointMap(s) { assert EndpointMap(s)[id] in multiset(s) && EndpointMap(s)[id] in multiset(t); }
      if id in EndpointMap(t) { assert EndpointMap(t)[id] in multiset(t) && EndpointMap(t)[id] in multiset(s); }
    }
    forall id | id in EndpointMap(t) ensures EndpointMap(s)[id] == EndpointMap(t)[id] {
      var e := EndpointMap(t)[id];
      assert e in multiset(t) && e in multiset(s);
      EndpointMapFindsUnique(s, e);
    }
  }

  lemma RearrangedLinksHaveSameMap(s: seq<Link>, t: seq<Link>)
    requires multiset(s) == multiset(t) && UniqueLinks(s)
    ensures LinkMap(s) == LinkMap(t)
  {
    hide LinkMap;
    LinkMapKeys(s);
    LinkMapKeys(t);
    forall id ensures id in LinkMap(s) <==> id in LinkMap(t) {
      if id in LinkMap(s) { assert LinkMap(s)[id] in multiset(s) && LinkMap(s)[id] in multiset(t); }
      if id in LinkMap(t) { assert LinkMap(t)[id] in multiset(t) && LinkMap(t)[id] in multiset(s); }
    }
    forall id | id in LinkMap(t) ensures LinkMap(s)[id] == LinkMap(t)[id] {
      var l := LinkMap(t)[id];
      assert l in multiset(t) && l in multiset(s);
      LinkMapFindsUnique(s, l);
    }
  }

  // ----- what the planner sees of a snapshot -----

  /** Two snapshots the planner cannot tell apart. */
  ghost predicate LooksAlike(s1: Snapshot, s2: Snapshot) {
    && s1.generations == s2.generations && s1.policyGeneration == s2.policyGeneration
    && s1.workerBoots == s2.workerBoots && s1.sourceBoots == s2.sourceBoots
    && SameEdges(s1.links, s2.links)
    && EndpointMap(s1.endpoints) == EndpointMap(s2.endpoints) && LinkMap(s1.links) == LinkMap(s2.links)
    && forall r :: ReservedOn(s1.reservations, r) == ReservedOn(s2.reservations, r)
  }

  lemma {:induction false} HopsVerdictLooksAlike(req: Request, s1: Snapshot, s2: Snapshot, emap: map<u64, Endpoint>,
                                                 lmap: map<u64, Link>, hops: seq<Hop>, i: nat)
    requires LooksAlike(s1, s2) && i <= |hops|
    ensures HopsVerdict(req, s1, emap, lmap, hops, i) == HopsVerdict(req, s2, emap, lmap, hops, i)
    decreases |hops| - i
  {
    hide SameEdges, EndpointMap, LinkMap, ReservedOn;
    if i < |hops| { HopsVerdictLooksAlike(req, s1, s2, emap, lmap, hops, i + 1); }
  }

  lemma AssessmentLooksAlike(req: Request, s1: Snapshot, s2: Snapshot, w: Weights, b: Bounds, c: CandidatePath)
    requires LooksAlike(s1, s2)
    ensures Assess(req, s1, w, b, c) == Assess(req, s2, w, b, c)
  {
    hide SameEdges, EndpointMap, LinkMap, ReservedOn, HopsVerdict, Summarize, ComponentsOver;
    HopsVerdictLooksAlike(req, s1, s2, EndpointMap(s1.endpoints), LinkMap(s1.links), c.hops, 0);
  }

  lemma {:induction false} ReportsLookAlike(req: Request, s1: Snapshot, s2: Snapshot, w: Weights, b: Bounds,
                                            cands: seq<CandidatePath>)
    requires LooksAlike(s1, s2)
    ensures Reports(req, s1, w, b, cands) == Reports(req, s2, w, b, cands)
  {
    hide LooksAlike, Assess;
    if cands != [] {
      ReportsLookAlike(req, s1, s2, w, b, cands[..|cands| - 1]);
      AssessmentLooksAlike(req, s1, s2, w, b, cands[|cands| - 1]);
    }
  }

  lemma RankingsLookAlike(req: Request, s1: Snapshot, s2: Snapshot, w: Weights, b: Bounds, src: u64, dst: u64)
    requires LooksAlike(s1, s2)
    ensures ReportsBetween(req, s1, w, b, src, dst) == ReportsBetween(req, s2, w, b, src, dst)
    ensures RankedBetween(req, s1, w, b, src, dst) == RankedBetween(req, s2, w, b, src, dst)
  {
    hide Enumerate, Reports, BestFirst, SameEdges;
    EnumerationSeesEdges(s1.links, s2.links, src, dst, b);
    ReportsLookAlike(req, s1, s2, w, b, Enumerate(s1.links, src, dst, b));
  }

  lemma {:induction false} ChoicesLookAlike(req: Request, s1: Snapshot, s2: Snapshot, w: Weights, b: Bounds, src: u64,
                                            dests: seq<u64>)
    requires LooksAlike(s1, s2)
    ensures Chosen(req, s1, w, b, src, dests) == Chosen(req, s2, w, b, src, dests)
  {
    hide LooksAlike, RankedBetween;
    if dests != [] {
      ChoicesLookAlike(req, s1, s2, w, b, src, dests[..|dests| - 1]);
      RankingsLookAlike(req, s1, s2, w, b, src, dests[|dests| - 1]);
    }
  }

  lemma {:induction false} MulticastLooksAlike(req: Request, s1: Snapshot, s2: Snapshot, w: Weights, b: Bounds,
                                               dests: seq<u64>)
    requires LooksAlike(s1, s2)
    ensures MulticastReports(req, s1, w, b, dests) == MulticastReports(req, s2, w, b, dests)
    ensures MulticastRanked(req, s1, w, b, dests) == MulticastRanked(req, s2, w, b, dests)
  {
    hide LooksAlike, ReportsBetween, BestFirstAt, BestFirst;
    if dests != [] {
      MulticastLooksAlike(req, s1, s2, w, b, dests[..|dests| - 1]);
      RankingsLookAlike(req, s1, s2, w, b, req.source, dests[|dests| - 1]);
    }
  }

  lemma {:induction false} PrefixLooksAlike(req: Request, s1: Snapshot, s2: Snapshot, w: Weights, b: Bounds, root: u64,
                                            members: seq<u64>, i: nat)
    requires LooksAlike(s1, s2) && i <= |members|
    ensures ReachablePrefix(req, s1, w, b, root, members, i) == ReachablePrefix(req, s2, w, b, root, members, i)
    decreases |members| - i
  {
    hide LooksAlike, RankedBetween;
    if i < |members| {
      RankingsLookAlike(req, s1, s2, w, b, root, members[i]);
      PrefixLooksAlike(req, s1, s2, w, b, root, members, i + 1);
    }
  }

  lemma PointPlansLookAlike(req: Request, s1: Snapshot, s2: Snapshot, w: Weights, b: Bounds, ids: Ids, dst: u64)
    requires LooksAlike(s1, s2)
    ensures PlanBetween(req, s1, w, b, ids, dst) == PlanBetween(req, s2, w, b, ids, dst)
  {
    hide SameEdges, EndpointMap, LinkMap, ReservedOn, RankedBetween, ReportsBetween, BestFirstAt, PathsOf,
      BoundEndpoints, BoundLinks, Claims, TotalHops, Linked, AllHops;
    RankingsLookAlike(req, s1, s2, w, b, req.source, dst);
    RankedAreLinked(req, s1, w, b, req.source, dst);
    RankedAreLinked(req, s2, w, b, req.source, dst);
    RankedAreFew(req, s1, w, b, req.source, dst);
  }

  lemma MulticastPlansLookAlike(req: Request, s1: Snapshot, s2: Snapshot, w: Weights, b: Bounds, ids: Ids)
    requires LooksAlike(s1, s2) && |req.destinations| < TWO64
    ensures PlanMulticast(req, s1, w, b, ids) == PlanMulticast(req, s2, w, b, ids)
  {
    hide SameEdges, EndpointMap, LinkMap, ReservedOn, RankedBetween, Chosen, MulticastReports, MulticastRanked, PathsOf,
      BoundEndpoints, BoundLinks, Claims, TotalHops, Linked, AllHops, Summarize, AllRelays, AllComponents;
    ChoicesLookAlike(req, s1, s2, w, b, req.source, req.destinations);
    MulticastLooksAlike(req, s1, s2, w, b, req.destinations);
    forall d ensures Reachable(req, s1, w, b, req.source, d) == Reachable(req, s2, w, b, req.source, d) {
      RankingsLookAlike(req, s1, s2, w, b, req.source, d);
    }
    ChosenAreLinked(req, s1, w, b, req.source, req.destinations);
  }

  lemma CollectivePlansLookAlike(req: Request, s1: Snapshot, s2: Snapshot, w: Weights, b: Bounds, ids: Ids)
    requires LooksAlike(s1, s2) && req.participants != []
    ensures PlanCollective(req, s1, w, b, ids) == PlanCollective(req, s2, w, b, ids)
  {
    hide SameEdges, EndpointMap, LinkMap, ReservedOn, RankedBetween, Chosen, Members, PathsOf, BoundEndpoints,
      BoundLinks, Claims, TotalHops, Linked, AllHops, Summarize, AllRelays, AllComponents, ReachablePrefix;
    var root := req.participants[0];
    var members := Members(root, req.participants);
    PrefixLooksAlike(req, s1, s2, w, b, root, members, 0);
    var n := ReachablePrefix(req, s1, w, b, root, members, 0);
    ChoicesLookAlike(req, s1, s2, w, b, root, members[..n]);
    ChosenAreLinked(req, s1, w, b, root, members[..n]);
  }

  /** `t` holds the evidence of `s`, listed in another order. */
  ghost predicate Rearranges(s: Snapshot, t: Snapshot) {
    && t == s.(endpoints := t.endpoints, links := t.links, reservations := t.reservations,
               resourceCapacities := t.resourceCapacities)
    && multiset(s.endpoints) == multiset(t.endpoints)
    && multiset(s.links) == multiset(t.links)
    && multiset(s.reservations) == multiset(t.reservations)
  }

  lemma RearrangedLooksAlike(s: Snapshot, t: Snapshot)
    requires Rearranges(s, t) && UniqueEndpoints(s.endpoints) && UniqueLinks(s.links)
    ensures LooksAlike(s, t)
  {
    hide SameEdges, EndpointMap, LinkMap, Sum;
    RearrangedLinksHaveSameEdges(s.links, t.links);
    RearrangedEndpointsHaveSameMap(s.endpoints, t.endpoints);
    RearrangedLinksHaveSameMap(s.links, t.links);
    forall r ensures ReservedOn(s.reservations, r) == ReservedOn(t.reservations, r) {
      SumRearranges(s.reservations, t.reservations, r);
    }
  }

  /** With unique ids, permuting endpoints, links and reservations changes nothing in the outcome:
      candidates, truncation, ranking, primary, fallbacks and bound generations are the same. */
  lemma PlanningIgnoresInsertionOrder(req: Request, s: Snapshot, t: Snapshot, w: Weights, b: Bounds, ids: Ids)
    requires Rearranges(s, t) && UniqueEndpoints(s.endpoints) && UniqueLinks(s.links)
    ensures PlanCommunication(req, s, w, b, ids) == PlanCommunication(req, t, w, b, ids)
  {
    hide Rearranges, LooksAlike, PlanBetween, PlanMulticast, PlanCollective;
    RearrangedLooksAlike(s, t);
    if req.Valid() {
      if req.EffectiveShape().Multicast? {
        MulticastPlansLookAlike(req, s, t, w, b, ids);
      } else if req.EffectiveShape().Collective? {
        CollectivePlansLookAlike(req, s, t, w, b, ids);
      } else if req.destinations != [] {
        PointPlansLookAlike(req, s, t, w, b, ids, req.destinations[0]);
      }
    }
  }
}
