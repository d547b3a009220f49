/** Which routes the enumeration keeps when there are too many, and in what order it lists them. */
module RouteOrder {
  import opened Core
  import opened Model
  import opened Sorting
  import opened Enumeration
  import opened SimplePaths
  import opened Ranking
  import opened RankLevels
  import opened StrictRanking

  /** Where the two first part, `p` goes on to the smaller endpoint, or to the same one by the smaller link. */
  ghost predicate Earlier(p: seq<Hop>, q: seq<Hop>) {
    exists k :: PartsEarlier(p, q, k)
  }

  ghost predicate PartsEarlier(p: seq<Hop>, q: seq<Hop>, k: nat) {
    && k < |p| && k < |q| && p[..k] == q[..k]
    && (p[k].to < q[k].to || (p[k].to == q[k].to && p[k].link < q[k].link))
  }

  ghost predicate InOrder(routes: seq<seq<Hop>>) {
    forall i, j :: 0 <= i < j < |routes| ==> Earlier(routes[i], routes[j])
  }

  lemma ConcatInOrder(s: seq<seq<Hop>>, t: seq<seq<Hop>>)
    requires InOrder(s) && InOrder(t) && forall p, q :: p in s && q in t ==> Earlier(p, q)
    ensures InOrder(s + t)
  {
    hide Earlier;
    forall i, j | 0 <= i < j < |s + t| ensures Earlier((s + t)[i], (s + t)[j]) {
      if i < |s| {
        assert (s + t)[i] == s[i] && s[i] in s;
        if j >= |s| { assert (s + t)[j] == t[j - |s|] && t[j - |s|] in t; }
      } else {
        assert (s + t)[i] == t[i - |s|] && (s + t)[j] == t[j - |s|];
      }
    }
  }

  /** Adjacency entries come by endpoint, then by link. */
  ghost predicate Sorted(edges: seq<Adj>) {
    forall i, j :: 0 <= i < j < |edges| ==>
      edges[i].to < edges[j].to || (edges[i].to == edges[j].to && edges[i].link < edges[j].link)
  }

  lemma EdgesAreSorted(links: seq<Link>, v: u64)
    requires UniqueLinks(links)
    ensures Sorted(SortedEdges(links, v)) && Distinct(SortedEdges(links, v))
  {
    var out := OutEdges(links, v);
    OutEdgesAreDistinct(links, v);
    SortKeepsElements(AdjLess, out);
    DistinctSurvivesRearrangement(out, SortedEdges(links, v));
    SortOrders(AdjLess, out);
  }

  lemma {:induction false} RoutesInOrder(links: seq<Link>, dst: u64, b: Bounds, visited: set<u64>, hops: seq<Hop>,
                                         cur: u64)
    requires UniqueLinks(links)
    ensures InOrder(Routes(links, dst, b, visited, hops, cur))
    decreases b.maxPathDepth - |hops|, 1
  {
    hide InOrder;
    if |hops| < b.maxPathDepth {
      EdgesAreSorted(links, cur);
      RoutesViaInOrder(links, dst, b, visited, hops, cur, SortedEdges(links, cur));
    } else {
      NothingInOrder();
    }
  }

  lemma NothingInOrder()
    ensures InOrder([]) && forall p :: InOrder([p])
  {
  }

  lemma {:induction false} RoutesViaInOrder(links: seq<Link>, dst: u64, b: Bounds, visited: set<u64>, hops: seq<Hop>,
                                            cur: u64, edges: seq<Adj>)
    requires UniqueLinks(links) && |hops| < b.maxPathDepth && Sorted(edges)
    requires forall a :: a in edges ==> a in SortedEdges(links, cur)
    ensures InOrder(RoutesVia(links, dst, b, visited, hops, cur, edges))
    decreases b.maxPathDepth - |hops|, 0, |edges|
  {
    hide InOrder, SortedEdges, Earlier, Reportable;
    NothingInOrder();
    if edges != [] {
      var a := edges[0];
      var through := RoutesThrough(links, dst, b, visited, hops, cur, a);
      var later := RoutesVia(links, dst, b, visited, hops, cur, edges[1..]);
      RoutesViaInOrder(links, dst, b, visited, hops, cur, edges[1..]);
      if a.to !in visited && a.to != dst {
        RoutesInOrder(links, dst, b, visited + {a.to}, hops + [Hop(a.link, cur, a.to)], a.to);
      }
      forall p, q | p in through && q in later ensures Earlier(p, q) {
        PartAtEdge(links, dst, b, visited, hops, cur, edges, p, q);
      }
      ConcatInOrder(through, later);
    }
  }

  lemma PartAtEdge(links: seq<Link>, dst: u64, b: Bounds, visited: set<u64>, hops: seq<Hop>, cur: u64,
                   edges: seq<Adj>, p: seq<Hop>, q: seq<Hop>)
    requires |hops| < b.maxPathDepth && edges != [] && Sorted(edges)
    requires forall a :: a in edges ==> a in SortedEdges(links, cur)
    requires p in RoutesThrough(links, dst, b, visited, hops, cur, edges[0])
    requires q in RoutesVia(links, dst, b, visited, hops, cur, edges[1..])
    ensures Earlier(p, q)
  {
    hide RoutesThrough, RoutesVia, SortedEdges;
    RoutesThroughAreExact(links, dst, b, visited, hops, cur, edges[0], p);
    RoutesViaAreExact(links, dst, b, visited, hops, cur, edges[1..], q);
    var i :| 0 <= i < |edges| - 1 && edges[1..][i] == Adj(q[|hops|].to, q[|hops|].link);
    assert edges[i + 1] == Adj(q[|hops|].to, q[|hops|].link);
    assert PartsEarlier(p, q, |hops|);
  }

  /** When the candidate limit leaves routes out, those it keeps all part earlier. */
  lemma KeepsTheEarliest(links: seq<Link>, src: u64, dst: u64, b: Bounds, c: CandidatePath, hops: seq<Hop>)
    requires UniqueLinks(links) && c in Enumerate(links, src, dst, b)
    requires Admissible(links, src, dst, b, hops) && CandidatePath(src, dst, hops) !in Enumerate(links, src, dst, b)
    ensures Earlier(c.hops, hops) && |Enumerate(links, src, dst, b)| == b.maxCandidates
  {
    hide Routes, Admissible, Sort, Earlier, CandidateLess;
    var routes, found := Routes(links, dst, b, {src}, [], src), Found(links, src, dst, b);
    EnumerationIsExact(links, src, dst, b);
    SortKeepsElements(CandidateLess, found);
    SearchIsExact(links, src, dst, b, hops);
    RoutesInOrder(links, dst, b, {src}, [], src);
    assert forall k :: 0 <= k < |found| ==> found[k] == CandidatePath(src, dst, routes[k]) && found[k] in found;
    var i :| 0 <= i < |found| && found[i] == c;
    var j :| 0 <= j < |routes| && routes[j] == hops;
    assert |found| <= j;
    assert Earlier(routes[i], routes[j]);
  }

  // ----- the order of the list -----

  lemma {:induction false} LinksLessParts(p: seq<Hop>, q: seq<Hop>)
    requires |p| == |q|
    ensures LinksLess(p, q) <==> PartsLower(p, q)
  {
    if p != [] {
      LinksLessParts(p[1..], q[1..]);
      PartsTail(p, q);
    }
  }

  /** The list goes by length, and among equally long routes by the link ids where they first part. */
  lemma ListIsSorted(links: seq<Link>, src: u64, dst: u64, b: Bounds, i: nat, j: nat)
    requires UniqueLinks(links) && i < j < |Enumerate(links, src, dst, b)|
    ensures var p, q := Enumerate(links, src, dst, b)[i].hops, Enumerate(links, src, dst, b)[j].hops;
      |p| < |q| || PartsLower(p, q)
  {
    hide Enumerate, Admissible, PartsLower, LinksLess;
    var r := Enumerate(links, src, dst, b);
    EnumerationIsExact(links, src, dst, b);
    assert r[i] in r && r[j] in r && r[i] != r[j] && !CandidateLess(r[j], r[i]);
    var p, q := r[i].hops, r[j].hops;
    if |p| == |q| {
      LinksLessParts(q, p);
      LexIsFirstParting(p, q);
      LexIsFirstParting(q, p);
      LexLessIsTotal(LinkIds(p), LinkIds(q));
      if LinkIds(p) == LinkIds(q) { SameLinksSameRoute(links, src, dst, b, p, q); }
    }
  }

  lemma SameLinksSameRoute(links: seq<Link>, src: u64, dst: u64, b: Bounds, p: seq<Hop>, q: seq<Hop>)
    requires UniqueLinks(links) && Admissible(links, src, dst, b, p) && Admissible(links, src, dst, b, q)
    requires LinkIds(p) == LinkIds(q)
    ensures p == q
  {
    LinksDetermineHops(links, src, dst, p, q);
  }
}
