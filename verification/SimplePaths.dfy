/** What the enumeration computes, said without a search: the simple directed paths within the
    depth and relay bounds. */
module SimplePaths {
  import opened Core
  import opened Model
  import opened Sorting
  import opened Enumeration

  /** `h` runs over a published link, in its direction. */
  ghost predicate Edge(links: seq<Link>, h: Hop) {
    exists l :: l in links && l.id == h.link && l.source == h.from && l.destination == h.to
  }

  /** A contiguous directed path from `src` to `dst` that enters no endpoint twice. */
  ghost predicate SimplePath(links: seq<Link>, src: u64, dst: u64, hops: seq<Hop>) {
    && hops != [] && hops[0].from == src && hops[|hops| - 1].to == dst
    && (forall i :: 0 <= i < |hops| ==> Edge(links, hops[i]) && hops[i].to != src)
    && (forall i :: 0 < i < |hops| ==> hops[i].from == hops[i - 1].to)
    && (forall i, j :: 0 <= i < j < |hops| ==> hops[i].to != hops[j].to)
  }

  ghost predicate Admissible(links: seq<Link>, src: u64, dst: u64, b: Bounds, hops: seq<Hop>) {
    && SimplePath(links, src, dst, hops)
    && |hops| <= b.maxPathDepth && |hops| - 1 <= b.maxRelayCount
  }

  /** `tail` continues a route standing at `cur` to `dst` without entering `visited`. */
  ghost predicate Continues(links: seq<Link>, dst: u64, visited: set<u64>, cur: u64, tail: seq<Hop>)
    decreases |tail|
  {
    && tail != [] && Edge(links, tail[0]) && tail[0].from == cur && tail[0].to !in visited
    && (if |tail| == 1 then tail[0].to == dst
        else tail[0].to != dst && Continues(links, dst, visited + {tail[0].to}, tail[0].to, tail[1..]))
  }

  /** `p` is what the search may report below `hops`, which leads to `cur`. */
  ghost predicate Reportable(links: seq<Link>, dst: u64, b: Bounds, visited: set<u64>, hops: seq<Hop>,
                             cur: u64, p: seq<Hop>) {
    && |hops| < |p| <= b.maxPathDepth && |p| - 1 <= b.maxRelayCount
    && p[..|hops|] == hops && Continues(links, dst, visited, cur, p[|hops|..])
  }

  lemma {:induction false} OutEdgesAreEdges(links: seq<Link>, v: u64, a: Adj)
    ensures a in OutEdges(links, v) <==> Edge(links, Hop(a.link, v, a.to))
  {
    if links != [] {
      var front, l := links[..|links| - 1], links[|links| - 1];
      OutEdgesAreEdges(front, v, a);
      assert links == front + [l];
      var h := Hop(a.link, v, a.to);
      if Edge(front, h) {
        var k :| k in front && k.id == h.link && k.source == h.from && k.destination == h.to;
        assert k in links;
      }
      if l.source == v && a == Adj(l.destination, l.id) {
        assert l in links;
      }
    }
  }

  lemma SortedEdgesAreEdges(links: seq<Link>, v: u64, a: Adj)
    ensures a in SortedEdges(links, v) <==> Edge(links, Hop(a.link, v, a.to))
  {
    OutEdgesAreEdges(links, v, a);
    SortKeepsElements(AdjLess, OutEdges(links, v));
    assert a in SortedEdges(links, v) <==> a in multiset(SortedEdges(links, v));
  }

  lemma {:induction false} RoutesAreExact(links: seq<Link>, dst: u64, b: Bounds, visited: set<u64>,
                                          hops: seq<Hop>, cur: u64, p: seq<Hop>)
    ensures p in Routes(links, dst, b, visited, hops, cur)
       <==> Reportable(links, dst, b, visited, hops, cur, p)
    decreases b.maxPathDepth - |hops|, 1, 0
  {
    if |hops| < b.maxPathDepth {
      var edges := SortedEdges(links, cur);
      RoutesViaAreExact(links, dst, b, visited, hops, cur, edges, p);
      if Reportable(links, dst, b, visited, hops, cur, p) {
        var h := p[|hops|];
        assert h == p[|hops|..][0];
        SortedEdgesAreEdges(links, cur, Adj(h.to, h.link));
        assert Adj(h.to, h.link) in edges;
      }
    }
  }

  lemma {:induction false} RoutesViaAreExact(links: seq<Link>, dst: u64, b: Bounds, visited: set<u64>,
                                             hops: seq<Hop>, cur: u64, edges: seq<Adj>, p: seq<Hop>)
    requires |hops| < b.maxPathDepth
    requires forall a :: a in edges ==> a in SortedEdges(links, cur)
    ensures p in RoutesVia(links, dst, b, visited, hops, cur, edges)
       <==> Reportable(links, dst, b, visited, hops, cur, p) && Adj(p[|hops|].to, p[|hops|].link) in edges
    decreases b.maxPathDepth - |hops|, 0, |edges|
  {
    if edges != [] {
      assert edges == [edges[0]] + edges[1..];
      RoutesThroughAreExact(links, dst, b, visited, hops, cur, edges[0], p);
      RoutesViaAreExact(links, dst, b, visited, hops, cur, edges[1..], p);
    }
  }

  lemma {:induction false} RoutesThroughAreExact(links: seq<Link>, dst: u64, b: Bounds, visited: set<u64>,
                                                 hops: seq<Hop>, cur: u64, a: Adj, p: seq<Hop>)
    requires |hops| < b.maxPathDepth && a in SortedEdges(links, cur)
    ensures p in RoutesThrough(links, dst, b, visited, hops, cur, a)
       <==> Reportable(links, dst, b, visited, hops, cur, p) && a == Adj(p[|hops|].to, p[|hops|].link)
    decreases b.maxPathDepth - |hops|, 0, 0
  {
    SortedEdgesAreEdges(links, cur, a);
    var h := Hop(a.link, cur, a.to);
    var longer := hops + [h];
    if |p| > |hops| {
      assert p[|hops|..][0] == p[|hops|];
      assert p[|hops|..][1..] == p[|longer|..];
      assert p[..|longer|] == p[..|hops|] + [p[|hops|]];
      assert p[..|hops|] == hops && p[|hops|] == h <==> p[..|longer|] == longer by {
        if p[..|longer|] == longer {
          assert longer[..|hops|] == hops && longer[|hops|] == h;
          assert p[..|longer|][..|hops|] == p[..|hops|];
        }
      }
    }
    if a.to in visited {
    } else if a.to == dst {
      if p == longer {
        assert p[|hops|..] == [h];
      }
      if Reportable(links, dst, b, visited, hops, cur, p) && a == Adj(p[|hops|].to, p[|hops|].link) {
        assert |p| == |longer| && p == p[..|longer|];
      }
    } else {
      RoutesAreExact(links, dst, b, visited + {a.to}, longer, a.to, p);
    }
  }

  /** The recursive description of a route is the declarative one. */
  lemma {:induction false} ContinuesIsSimple(links: seq<Link>, dst: u64, visited: set<u64>, cur: u64,
                                             tail: seq<Hop>)
    requires cur in visited
    ensures Continues(links, dst, visited, cur, tail) <==>
            SimplePath(links, cur, dst, tail) && forall i :: 0 <= i < |tail| ==> tail[i].to !in visited
    decreases |tail|
  {
    if |tail| > 1 {
      var next, rest := tail[0].to, tail[1..];
      ContinuesIsSimple(links, dst, visited + {next}, next, rest);
      if Continues(links, dst, visited, cur, tail) {
        forall i, j | 0 <= i < j < |tail| ensures tail[i].to != tail[j].to {
          assert tail[j] == rest[j - 1];
          if i > 0 { assert tail[i] == rest[i - 1]; }
        }
        forall i | 0 <= i < |tail|
          ensures Edge(links, tail[i]) && tail[i].to !in visited && (i > 0 ==> tail[i].from == tail[i - 1].to)
        {
          if i > 0 {
            assert tail[i] == rest[i - 1];
            if i > 1 { assert tail[i - 1] == rest[i - 2]; }
          }
        }
      } else if SimplePath(links, cur, dst, tail) && forall i :: 0 <= i < |tail| ==> tail[i].to !in visited {
        assert forall i :: 0 <= i < |rest| ==> rest[i] == tail[i + 1];
        assert tail[0].to != tail[|tail| - 1].to;
        assert SimplePath(links, next, dst, rest);
        assert false;
      }
    }
  }

  /** The untruncated search finds a route if and only if it is an admissible simple path. */
  lemma SearchIsExact(links: seq<Link>, src: u64, dst: u64, b: Bounds, p: seq<Hop>)
    ensures p in Routes(links, dst, b, {src}, [], src) <==> Admissible(links, src, dst, b, p)
  {
    RoutesAreExact(links, dst, b, {src}, [], src, p);
    assert p[0..] == p;
    ContinuesIsSimple(links, dst, {src}, src, p);
  }

  // ----- no route is found twice -----

  lemma {:induction false} OutEdgesAreDistinct(links: seq<Link>, v: u64)
    requires UniqueLinks(links)
    ensures Distinct(OutEdges(links, v))
    ensures forall a :: a in OutEdges(links, v) ==> exists l :: l in links && l.id == a.link
  {
    if links != [] {
      var front, l := links[..|links| - 1], links[|links| - 1];
      OutEdgesAreDistinct(front, v);
      forall a | a in OutEdges(front, v) ensures a.link != l.id {
        var k :| k in front && k.id == a.link;
      }
      assert links == front + [l];
      forall a | a in OutEdges(links, v) ensures exists m :: m in links && m.id == a.link {
        if a in OutEdges(front, v) {
          var k :| k in front && k.id == a.link;
          assert k in links;
        } else {
          assert l in links;
        }
      }
    }
  }

  lemma DistinctConcat<T>(s: seq<T>, t: seq<T>)
    requires Distinct(s) && Distinct(t) && forall x :: x in s ==> x !in t
    ensures Distinct(s + t)
  {
    forall i, j | 0 <= i < j < |s + t| ensures (s + t)[i] != (s + t)[j] {
      if i < |s| { assert (s + t)[i] in s; }
      if j >= |s| { assert (s + t)[j] in t; }
    }
  }

  lemma {:induction false} RoutesAreDistinct(links: seq<Link>, dst: u64, b: Bounds, visited: set<u64>,
                                             hops: seq<Hop>, cur: u64)
    requires UniqueLinks(links)
    ensures Distinct(Routes(links, dst, b, visited, hops, cur))
    decreases b.maxPathDepth - |hops|, 1
  {
    if |hops| < b.maxPathDepth {
      OutEdgesAreDistinct(links, cur);
      SortKeepsElements(AdjLess, OutEdges(links, cur));
      DistinctSurvivesRearrangement(OutEdges(links, cur), SortedEdges(links, cur));
      RoutesViaAreDistinct(links, dst, b, visited, hops, cur, SortedEdges(links, cur));
    }
  }

  lemma {:induction false} RoutesViaAreDistinct(links: seq<Link>, dst: u64, b: Bounds, visited: set<u64>,
                                                hops: seq<Hop>, cur: u64, edges: seq<Adj>)
    requires UniqueLinks(links) && |hops| < b.maxPathDepth && Distinct(edges)
    requires forall a :: a in edges ==> a in SortedEdges(links, cur)
    ensures Distinct(RoutesVia(links, dst, b, visited, hops, cur, edges))
    decreases b.maxPathDepth - |hops|, 0, |edges|
  {
    if edges != [] {
      var a := edges[0];
      var through := RoutesThrough(links, dst, b, visited, hops, cur, a);
      var later := RoutesVia(links, dst, b, visited, hops, cur, edges[1..]);
      RoutesViaAreDistinct(links, dst, b, visited, hops, cur, edges[1..]);
      if a.to !in visited && a.to != dst {
        RoutesAreDistinct(links, dst, b, visited + {a.to}, hops + [Hop(a.link, cur, a.to)], a.to);
      }
      forall p | p in through ensures p !in later {
        RoutesThroughAreExact(links, dst, b, visited, hops, cur, a, p);
        RoutesViaAreExact(links, dst, b, visited, hops, cur, edges[1..], p);
      }
      DistinctConcat(through, later);
    }
  }

  // ----- the order of the result -----

  lemma {:induction false} LinksLessIsAsymmetric(a: seq<Hop>, b: seq<Hop>)
    requires LinksLess(a, b)
    ensures !LinksLess(b, a)
  {
    if a[0].link == b[0].link {
      LinksLessIsAsymmetric(a[1..], b[1..]);
    }
  }

  lemma {:induction false} LinksLessSplits(a: seq<Hop>, b: seq<Hop>, c: seq<Hop>)
    requires LinksLess(a, c) && |a| == |b| == |c|
    ensures LinksLess(a, b) || LinksLess(b, c)
  {
    if a[0].link == b[0].link == c[0].link {
      LinksLessSplits(a[1..], b[1..], c[1..]);
    }
  }

  lemma CandidateLessIsStrictWeak(s: seq<CandidatePath>)
    ensures StrictWeakOn(CandidateLess, s)
  {
    forall a, b | a in s && b in s && CandidateLess(a, b) ensures !CandidateLess(b, a) {
      if |a.hops| == |b.hops| { LinksLessIsAsymmetric(a.hops, b.hops); }
    }
    forall a, b, c | a in s && b in s && c in s && CandidateLess(a, c)
      ensures CandidateLess(a, b) || CandidateLess(b, c)
    {
      if |a.hops| == |b.hops| == |c.hops| { LinksLessSplits(a.hops, b.hops, c.hops); }
    }
  }

  /** The enumeration returns at most `maxCandidates` admissible simple paths, none twice, shortest
      first; and when the limit did not stop it, it returns all of them. */
  lemma EnumerationIsExact(links: seq<Link>, src: u64, dst: u64, b: Bounds)
    ensures var r := Enumerate(links, src, dst, b);
      && |r| <= b.maxCandidates
      && (forall c :: c in r ==> c.source == src && c.destination == dst && Admissible(links, src, dst, b, c.hops))
      && (|r| < b.maxCandidates ==>
            forall hops :: Admissible(links, src, dst, b, hops) ==> CandidatePath(src, dst, hops) in r)
      && Ordered(CandidateLess, r)
      && (UniqueLinks(links) ==> Distinct(r))
  {
    hide Routes, Admissible, CandidateLess, Sort;
    var routes := Routes(links, dst, b, {src}, [], src);
    var found := Found(links, src, dst, b);
    var r := Enumerate(links, src, dst, b);
    SortKeepsElements(CandidateLess, found);
    CandidateLessIsStrictWeak(found);
    SortOrders(CandidateLess, found);
    forall c | c in r
      ensures c.source == src && c.destination == dst && Admissible(links, src, dst, b, c.hops)
    {
      assert c in multiset(r) && c in multiset(found);
      var i :| 0 <= i < |found| && found[i] == c;
      assert routes[i] == c.hops;
      SearchIsExact(links, src, dst, b, c.hops);
    }
    if |r| < b.maxCandidates {
      forall hops | Admissible(links, src, dst, b, hops) ensures CandidatePath(src, dst, hops) in r {
        SearchIsExact(links, src, dst, b, hops);
        var i :| 0 <= i < |routes| && routes[i] == hops;
        assert found[i] == CandidatePath(src, dst, hops);
        assert found[i] in multiset(found) && found[i] in multiset(r);
      }
    }
    if UniqueLinks(links) {
      RoutesAreDistinct(links, dst, b, {src}, [], src);
      assert Distinct(found);
      DistinctSurvivesRearrangement(found, r);
    }
  }
}
