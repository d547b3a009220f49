/** `enumerateCandidatePaths`: the bounded depth-first search, and the recursive specification it is proved
    against. What that specification lists is the subject of SimplePaths. */
module Enumeration {
  import opened Core
  import opened Model
  import opened Sorting

  datatype Adj = Adj(to: u64, link: u64)

  predicate AdjLess(a: Adj, b: Adj) {
    if a.to != b.to then a.to < b.to else a.link < b.link
  }

  /** Lexicographic order on the link ids of two equally long hop sequences. */
  predicate LinksLess(a: seq<Hop>, b: seq<Hop>) {
    a != [] && b != [] &&
    (if a[0].link != b[0].link then a[0].link < b[0].link else LinksLess(a[1..], b[1..]))
  }

  predicate CandidateLess(a: CandidatePath, b: CandidatePath) {
    if |a.hops| != |b.hops| then |a.hops| < |b.hops| else LinksLess(a.hops, b.hops)
  }

  // ----- the specification -----

  /** The adjacency entries of `v` in link-list order. */
  function OutEdges(links: seq<Link>, v: u64): seq<Adj> {
    if links == [] then []
    else
      var l := links[|links| - 1];
      OutEdges(links[..|links| - 1], v) + if l.source == v then [Adj(l.destination, l.id)] else []
  }

  function SortedEdges(links: seq<Link>, v: u64): seq<Adj> {
    Sort(AdjLess, OutEdges(links, v))
  }

  /** Every route the search finds below `cur` when no candidate limit stops it, in the order it
      finds them. `hops` leads from the source to `cur`. */
  function Routes(links: seq<Link>, dst: u64, b: Bounds, visited: set<u64>, hops: seq<Hop>, cur: u64)
    : seq<seq<Hop>>
    decreases b.maxPathDepth - |hops|, 1, 0
  {
    if |hops| >= b.maxPathDepth then []
    else RoutesVia(links, dst, b, visited, hops, cur, SortedEdges(links, cur))
  }

  function RoutesVia(links: seq<Link>, dst: u64, b: Bounds, visited: set<u64>, hops: seq<Hop>, cur: u64,
                     edges: seq<Adj>): seq<seq<Hop>>
    requires |hops| < b.maxPathDepth
    decreases b.maxPathDepth - |hops|, 0, |edges|
  {
    if edges == [] then []
    else
      RoutesThrough(links, dst, b, visited, hops, cur, edges[0])
      + RoutesVia(links, dst, b, visited, hops, cur, edges[1..])
  }

  function RoutesThrough(links: seq<Link>, dst: u64, b: Bounds, visited: set<u64>, hops: seq<Hop>,
                         cur: u64, a: Adj): seq<seq<Hop>>
    requires |hops| < b.maxPathDepth
    decreases b.maxPathDepth - |hops|, 0, 0
  {
    var longer := hops + [Hop(a.link, cur, a.to)];
    if a.to in visited then []
    else if a.to == dst then (if |hops| <= b.maxRelayCount then [longer] else [])
    else Routes(links, dst, b, visited + {a.to}, longer, a.to)
  }

  function Take<T>(n: nat, s: seq<T>): seq<T> {
    if |s| <= n then s else s[..n]
  }

  function AsCandidates(src: u64, dst: u64, routes: seq<seq<Hop>>): (r: seq<CandidatePath>)
    ensures |r| == |routes|
    ensures forall i :: 0 <= i < |r| ==> r[i] == CandidatePath(src, dst, routes[i])
  {
    seq(|routes|, i requires 0 <= i < |routes| => CandidatePath(src, dst, routes[i]))
  }

  function Found(links: seq<Link>, src: u64, dst: u64, b: Bounds): seq<CandidatePath> {
    Take(b.maxCandidates, AsCandidates(src, dst, Routes(links, dst, b, {src}, [], src)))
  }

  function Enumerate(links: seq<Link>, src: u64, dst: u64, b: Bounds): seq<CandidatePath> {
    Sort(CandidateLess, Found(links, src, dst, b))
  }

  // ----- the search itself -----

  /** The search's shared state: the endpoints on the current route, the route, and the results. */
  class Search {
    const adjacency: map<u64, seq<Adj>>
    const src: u64
    const dst: u64
    const bounds: Bounds
    var visited: set<u64>
    var hops: seq<Hop>
    var out: seq<CandidatePath>

    constructor (adjacency: map<u64, seq<Adj>>, src: u64, dst: u64, bounds: Bounds)
      ensures this.adjacency == adjacency && this.src == src && this.dst == dst && this.bounds == bounds
      ensures visited == {src} && hops == [] && out == []
    {
      this.adjacency, this.src, this.dst, this.bounds := adjacency, src, dst, bounds;
      visited, hops, out := {src}, [], [];
    }

    /** What the results become when the routes below `cur` are added under the candidate limit. */
    ghost function Extended(out: seq<CandidatePath>, routes: seq<seq<Hop>>): seq<CandidatePath> {
      Take(bounds.maxCandidates, out + AsCandidates(src, dst, routes))
    }

    method Dfs(ghost links: seq<Link>, cur: u64)
      requires forall v :: v in adjacency ==> adjacency[v] == SortedEdges(links, v)
      requires forall v :: v !in adjacency ==> SortedEdges(links, v) == []
      requires |out| <= bounds.maxCandidates
      requires src in visited && cur in visited
      modifies this`visited, this`hops, this`out
      ensures visited == old(visited) && hops == old(hops)
      ensures |out| <= bounds.maxCandidates
      ensures out == Extended(old(out), Routes(links, dst, bounds, old(visited), old(hops), cur))
      decreases bounds.maxPathDepth - |hops|
    {
      hide Extended, SortedEdges;
      ExtendByNothing(out);
      if |out| >= bounds.maxCandidates {
        FullStaysFull(out, Routes(links, dst, bounds, visited, hops, cur));
        return;
      }
      if |hops| >= bounds.maxPathDepth { return; }
      if cur !in adjacency { return; }
      var edges := adjacency[cur];
      ghost var seen, route := visited, hops;
      ghost var target := Extended(out, RoutesVia(links, dst, bounds, seen, route, cur, edges));
      for i := 0 to |edges|
        invariant visited == seen && hops == route && |out| <= bounds.maxCandidates
        invariant target == Extended(out, RoutesVia(links, dst, bounds, seen, route, cur, edges[i..]))
      {
        if |out| >= bounds.maxCandidates {
          FullStaysFull(out, RoutesVia(links, dst, bounds, seen, route, cur, edges[i..]));
          return;
        }
        var a := edges[i];
        assert edges[i..][0] == a && edges[i..][1..] == edges[i + 1..];
        ghost var through := RoutesThrough(links, dst, bounds, seen, route, cur, a);
        ghost var later := RoutesVia(links, dst, bounds, seen, route, cur, edges[i + 1..]);
        ghost var before := out;
        ExtendByNothing(before);
        ExtendByOne(before, hops + [Hop(a.link, cur, a.to)]);
        if a.to !in visited {
          hops := hops + [Hop(a.link, cur, a.to)];
          visited := visited + {a.to};
          if a.to == dst {
            if |hops| - 1 <= bounds.maxRelayCount {
              out := out + [CandidatePath(src, dst, hops)];
            }
          } else {
            Dfs(links, a.to);
          }
          visited := visited - {a.to};
          hops := hops[..|hops| - 1];
          assert visited == seen && hops == route;
        }
        assert out == Extended(before, through);
        ExtendInTwo(before, through, later);
      }
      assert edges[|edges|..] == [];
      ExtendByNothing(out);
    }

    lemma ExtendByNothing(out: seq<CandidatePath>)
      requires |out| <= bounds.maxCandidates
      ensures Extended(out, []) == out
    {
      assert out + AsCandidates(src, dst, []) == out;
    }

    lemma ExtendByOne(out: seq<CandidatePath>, route: seq<Hop>)
      requires |out| < bounds.maxCandidates
      ensures Extended(out, [route]) == out + [CandidatePath(src, dst, route)]
    {
      assert AsCandidates(src, dst, [route]) == [CandidatePath(src, dst, route)];
    }

    lemma FullStaysFull(out: seq<CandidatePath>, routes: seq<seq<Hop>>)
      requires |out| == bounds.maxCandidates
      ensures Extended(out, routes) == out
    {
    }

    lemma ExtendInTwo(out: seq<CandidatePath>, first: seq<seq<Hop>>, second: seq<seq<Hop>>)
      ensures Extended(Extended(out, first), second) == Extended(out, first + second)
    {
      var f, s := AsCandidates(src, dst, first), AsCandidates(src, dst, second);
      assert AsCandidates(src, dst, first + second) == f + s;
      assert out + (f + s) == (out + f) + s;
      TakeInTwo(bounds.maxCandidates, out + f, s);
    }
  }

  lemma TakeInTwo<T>(n: nat, a: seq<T>, b: seq<T>)
    ensures Take(n, Take(n, a) + b) == Take(n, a + b)
  {
  }

  method BuildAdjacency(links: seq<Link>) returns (adj: map<u64, seq<Adj>>)
    ensures forall v :: v in adj ==> adj[v] == SortedEdges(links, v)
    ensures forall v :: v !in adj ==> SortedEdges(links, v) == []
  {
    var raw: map<u64, seq<Adj>> := map[];
    for i := 0 to |links|
      invariant forall v :: v in raw ==> raw[v] == OutEdges(links[..i], v)
      invariant forall v :: v !in raw ==> OutEdges(links[..i], v) == []
    {
      var l := links[i];
      assert links[..i + 1][..i] == links[..i];
      raw := raw[l.source := (if l.source in raw then raw[l.source] else []) + [Adj(l.destination, l.id)]];
    }
    assert links[..|links|] == links;
    adj := map v | v in raw :: Sort(AdjLess, raw[v]);
  }

  method EnumerateCandidatePaths(links: seq<Link>, src: u64, dst: u64, b: Bounds)
    returns (paths: seq<CandidatePath>)
    ensures paths == Enumerate(links, src, dst, b)
  {
    var adj := BuildAdjacency(links);
    var search := new Search(adj, src, dst, b);
    search.Dfs(links, src);
    var routes := search.out;
    assert [] + AsCandidates(src, dst, Routes(links, dst, b, {src}, [], src))
        == AsCandidates(src, dst, Routes(links, dst, b, {src}, [], src));
    paths := Sort(CandidateLess, routes);
  }
}
