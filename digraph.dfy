/**
 * The directed topology of the editor: a networkx DiGraph whose edges carry
 * the connection widget that draws them, modelled as a map from ordered
 * node pairs to the connection. A connection is 'bidir' (both directions
 * present) or 'unidir' (one direction).
 */
module Digraph {
  datatype Dir = Bidir | Unidir

  /** The value _change_dir assigns: the other direction. */
  function Flipped(d: Dir): (r: Dir)
    ensures r != d
  {
    if d == Unidir then Bidir else Unidir
  }

  lemma FlippedInvolution(d: Dir)
    ensures Flipped(Flipped(d)) == d
  {
  }

  function Reverse<N>(e: (N, N)): (N, N) { (e.1, e.0) }

  /** The edges whose obj is c. */
  function Tagged<N(==), C(==)>(edges: map<(N, N), C>, c: C): set<(N, N)>
  {
    set e | e in edges && edges[e] == c
  }

  /**
   * The bookkeeping invariant that the editor keeps: no self-loops; every
   * tag has a direction; the reverse of an edge is present exactly when its
   * connection is bidirectional, and carries the same connection; and a
   * connection tags no edge but one pair and its reverse.
   */
  ghost predicate Consistent<N, C>(edges: map<(N, N), C>, dir: map<C, Dir>)
  {
    && (forall e | e in edges :: e.0 != e.1 && edges[e] in dir)
    && (forall e {:trigger Reverse(e) in edges} | e in edges :: (Reverse(e) in edges) <==> dir[edges[e]] == Bidir)
    && (forall e {:trigger edges[Reverse(e)]} | e in edges && Reverse(e) in edges :: edges[Reverse(e)] == edges[e])
    && (forall e, f | e in edges && f in edges && edges[e] == edges[f] :: f == e || f == Reverse(e))
  }

  /** add_edge(v, u, obj=c) for the edge e = (u, v). */
  function AddReverse<N(==), C(==)>(edges: map<(N, N), C>, e: (N, N), c: C): (r: map<(N, N), C>)
    ensures Reverse(e) in r && r[Reverse(e)] == c
    ensures forall f | f in edges && f != Reverse(e) :: f in r && r[f] == edges[f]
    ensures forall f | f in r :: f in edges || f == Reverse(e)
  {
    edges[Reverse(e) := c]
  }

  /** remove_edge of e. */
  function RemoveEdge<N(==), C(==)>(edges: map<(N, N), C>, e: (N, N)): (r: map<(N, N), C>)
    ensures e !in r
    ensures forall f | f in edges && f != e :: f in r && r[f] == edges[f]
    ensures forall f | f in r :: f in edges
  {
    edges - {e}
  }

  /** _change_dir_src on the single edge e: the reverse is added, then e is removed. */
  function SwapSource<N(==), C(==)>(edges: map<(N, N), C>, e: (N, N), c: C): (r: map<(N, N), C>)
    ensures e != Reverse(e) ==> Reverse(e) in r && r[Reverse(e)] == c && e !in r
    ensures forall f | f in edges && f != e && f != Reverse(e) :: f in r && r[f] == edges[f]
    ensures forall f | f in r :: f in edges || f == Reverse(e)
  {
    RemoveEdge(AddReverse(edges, e, c), e)
  }

  /** The edges left after removing every edge whose obj is c. */
  function RemoveTagged<N(==), C(==)>(edges: map<(N, N), C>, c: C): (r: map<(N, N), C>)
    ensures forall e | e in edges :: e in r <==> e !in Tagged(edges, c)
    ensures forall e | e in r :: e in edges && r[e] == edges[e]
  {
    map e | e in edges && edges[e] != c :: edges[e]
  }

  function InEdges<N(==), C(==)>(edges: map<(N, N), C>, n: N): set<(N, N)>
  {
    set e | e in edges && e.1 == n
  }

  function OutEdges<N(==), C(==)>(edges: map<(N, N), C>, n: N): set<(N, N)>
  {
    set e | e in edges && e.0 == n
  }

  /** The connections on the edges of es that are present. */
  function TagsOn<N(==), C(==)>(edges: map<(N, N), C>, es: set<(N, N)>): set<C>
  {
    set e | e in es && e in edges :: edges[e]
  }

  /** Adding a present edge to es adds its connection to the tags on es. */
  lemma TagsOnInsert<N, C>(edges: map<(N, N), C>, es: set<(N, N)>, e: (N, N))
    requires e in edges
    ensures TagsOn(edges, es + {e}) == TagsOn(edges, es) + {edges[e]}
  {
  }

  /** The connections on the edges into or out of n. */
  function IncidentTags<N(==), C(==)>(edges: map<(N, N), C>, n: N): set<C>
  {
    TagsOn(edges, InEdges(edges, n) + OutEdges(edges, n))
  }

  /** remove_node of n: n goes, and with it every edge into or out of n. */
  function RemoveNode<N(==), C(==)>(edges: map<(N, N), C>, n: N): (r: map<(N, N), C>)
    ensures forall e | e in edges :: e in r <==> e !in InEdges(edges, n) && e !in OutEdges(edges, n)
    ensures forall e | e in r :: e in edges && r[e] == edges[e]
  {
    map e | e in edges && e.0 != n && e.1 != n :: edges[e]
  }

  /**
   * The edges tagged with the connection of e are e and, for a bidirectional
   * connection, its reverse: so the edge counts that on_conn_dir and
   * _change_dir_src assert are what the invariant guarantees.
   */
  lemma {:induction false} TaggedOfEdge<N, C>(edges: map<(N, N), C>, dir: map<C, Dir>, e: (N, N))
    requires Consistent(edges, dir) && e in edges
    ensures Tagged(edges, edges[e]) == if dir[edges[e]] == Bidir then {e, Reverse(e)} else {e}
    ensures |Tagged(edges, edges[e])| == if dir[edges[e]] == Bidir then 2 else 1
  {
    var c := edges[e];
    var t := Tagged(edges, c);
    if dir[c] == Bidir {
      assert Reverse(e) in t;
      assert t == {e, Reverse(e)};
      assert e != Reverse(e);
    } else {
      assert t == {e};
    }
  }

  /** A connection that tags no edge, or tags some: one of the two counts. */
  lemma TaggedCount<N, C>(edges: map<(N, N), C>, dir: map<C, Dir>, c: C)
    requires Consistent(edges, dir) && c in edges.Values
    ensures c in dir
    ensures |Tagged(edges, c)| == if dir[c] == Bidir then 2 else 1
  {
    var e :| e in edges && edges[e] == c;
    TaggedOfEdge(edges, dir, e);
  }

  /**
   * Switching a unidirectional connection to 'bidir': adding the reverse
   * of its one edge keeps the invariant, now with c bidirectional.
   */
  lemma {:induction false} AddReverseConsistent<N, C>(edges: map<(N, N), C>, dir: map<C, Dir>, e: (N, N))
    requires Consistent(edges, dir) && e in edges && dir[edges[e]] == Unidir
    ensures var c := edges[e];
            && Consistent(AddReverse(edges, e, c), dir[c := Bidir])
            && Tagged(AddReverse(edges, e, c), c) == {e, Reverse(e)}
            && AddReverse(edges, e, c).Values == edges.Values
  {
    var c := edges[e];
    var r := AddReverse(edges, e, c);
    var d := dir[c := Bidir];
    TaggedOfEdge(edges, dir, e);
    assert Reverse(e) !in edges;
    forall f | f in r
      ensures f.0 != f.1 && r[f] in d
      ensures (Reverse(f) in r) <==> d[r[f]] == Bidir
    {
      if f != Reverse(e) && r[f] == c {
        assert f in Tagged(edges, c);
      }
    }
    forall f, g | f in r && g in r && r[f] == r[g]
      ensures g == f || g == Reverse(f)
    {
      if r[f] == c {
        assert f == e || f == Reverse(e) by { if f != Reverse(e) { assert f in Tagged(edges, c); } }
        assert g == e || g == Reverse(e) by { if g != Reverse(e) { assert g in Tagged(edges, c); } }
      }
    }
    assert Tagged(r, c) == {e, Reverse(e)} by {
      forall f | f in Tagged(r, c) ensures f == e || f == Reverse(e) {
        if f != Reverse(e) { assert f in Tagged(edges, c); }
      }
    }
  }

  /**
   * Switching a bidirectional connection to 'unidir': removing either of
   * its two edges keeps the invariant, now with c unidirectional.
   */
  lemma {:induction false} RemoveEdgeConsistent<N, C>(edges: map<(N, N), C>, dir: map<C, Dir>, e: (N, N))
    requires Consistent(edges, dir) && e in edges && dir[edges[e]] == Bidir
    ensures var c := edges[e];
            && Consistent(RemoveEdge(edges, e), dir[c := Unidir])
            && Tagged(RemoveEdge(edges, e), c) == {Reverse(e)}
            && RemoveEdge(edges, e).Values == edges.Values
  {
    var c := edges[e];
    var r := RemoveEdge(edges, e);
    var d := dir[c := Unidir];
    TaggedOfEdge(edges, dir, e);
    assert Tagged(r, c) == {Reverse(e)};
    forall f | f in r
      ensures (Reverse(f) in r) <==> d[r[f]] == Bidir
    {
      if r[f] == c {
        assert f in Tagged(edges, c);
      }
    }
  }

  /**
   * _change_dir_src on a unidirectional connection: its edge e is replaced
   * by the reverse, the invariant holds with the same directions, and no
   * other edge changes.
   */
  lemma {:induction false} SwapSourceConsistent<N, C>(edges: map<(N, N), C>, dir: map<C, Dir>, e: (N, N))
    requires Consistent(edges, dir) && e in edges && dir[edges[e]] == Unidir
    ensures var c := edges[e];
            var r := SwapSource(edges, e, c);
            && Consistent(r, dir)
            && Tagged(r, c) == {Reverse(e)}
            && r.Values == edges.Values
            && (forall f | f in edges && f != e :: f in r && r[f] == edges[f])
            && (forall f | f in r && f != Reverse(e) :: f in edges)
  {
    var c := edges[e];
    AddReverseConsistent(edges, dir, e);
    var a := AddReverse(edges, e, c);
    assert a[e] == c;
    RemoveEdgeConsistent(a, dir[c := Bidir], e);
    assert dir[c := Bidir][c := Unidir] == dir by {
      TaggedOfEdge(edges, dir, e);
    }
  }

  /** Swapping the source twice gives back the original edges. */
  lemma {:induction false} SwapSourceTwice<N, C>(edges: map<(N, N), C>, dir: map<C, Dir>, e: (N, N))
    requires Consistent(edges, dir) && e in edges && dir[edges[e]] == Unidir
    ensures var c := edges[e];
            SwapSource(SwapSource(edges, e, c), Reverse(e), c) == edges
  {
    var c := edges[e];
    TaggedOfEdge(edges, dir, e);
    assert Reverse(e) !in edges;
    assert Reverse(Reverse(e)) == e;
  }

  /**
   * Switching unidirectional to bidirectional and back (removing whichever
   * of the two edges is chosen) restores the edges, or leaves them with the
   * source swapped.
   */
  lemma {:induction false} UnidirRoundTrip<N, C>(edges: map<(N, N), C>, dir: map<C, Dir>, e: (N, N), f: (N, N))
    requires Consistent(edges, dir) && e in edges && dir[edges[e]] == Unidir
    requires f in Tagged(AddReverse(edges, e, edges[e]), edges[e])
    ensures var c := edges[e];
            var r := RemoveEdge(AddReverse(edges, e, c), f);
            r == edges || r == SwapSource(edges, e, c)
  {
    var c := edges[e];
    AddReverseConsistent(edges, dir, e);
    assert f == e || f == Reverse(e);
    TaggedOfEdge(edges, dir, e);
    assert Reverse(e) !in edges;
    if f == Reverse(e) {
      assert RemoveEdge(AddReverse(edges, e, c), f) == edges;
    }
  }

  /**
   * Switching bidirectional to unidirectional and back restores the edges
   * exactly, whichever of the two edges was removed.
   */
  lemma {:induction false} BidirRoundTrip<N, C>(edges: map<(N, N), C>, dir: map<C, Dir>, e: (N, N), g: (N, N))
    requires Consistent(edges, dir) && e in edges && dir[edges[e]] == Bidir
    requires Tagged(RemoveEdge(edges, e), edges[e]) == {g}
    ensures AddReverse(RemoveEdge(edges, e), g, edges[e]) == edges
  {
    var c := edges[e];
    RemoveEdgeConsistent(edges, dir, e);
    assert g == Reverse(e);
    TaggedOfEdge(edges, dir, e);
    assert edges[Reverse(e)] == c;
    assert Reverse(g) == e;
  }

  /** Removing every edge tagged c leaves none tagged c, and keeps the invariant. */
  lemma {:induction false} RemoveTaggedConsistent<N, C>(edges: map<(N, N), C>, dir: map<C, Dir>, c: C)
    requires Consistent(edges, dir)
    ensures Consistent(RemoveTagged(edges, c), dir)
    ensures Tagged(RemoveTagged(edges, c), c) == {}
    ensures RemoveTagged(edges, c).Values == edges.Values - {c}
  {
    var r := RemoveTagged(edges, c);
    forall f | f in r
      ensures (Reverse(f) in r) <==> dir[r[f]] == Bidir
    {
      if Reverse(f) in edges {
        assert edges[Reverse(f)] == edges[f];
      }
    }
    forall v | v in edges.Values - {c} ensures v in r.Values {
      var f :| f in edges && edges[f] == v;
      assert f in r;
    }
  }

  /**
   * Removing a node removes exactly the connections on its incident edges:
   * every other connection keeps all its edges, since each connection joins
   * one pair.
   */
  lemma {:induction false} RemoveNodeConsistent<N, C>(edges: map<(N, N), C>, dir: map<C, Dir>, n: N)
    requires Consistent(edges, dir)
    ensures Consistent(RemoveNode(edges, n), dir)
    ensures RemoveNode(edges, n).Values == edges.Values - IncidentTags(edges, n)
    ensures InEdges(RemoveNode(edges, n), n) == {} && OutEdges(RemoveNode(edges, n), n) == {}
  {
    var r := RemoveNode(edges, n);
    forall f | f in r
      ensures (Reverse(f) in r) <==> dir[r[f]] == Bidir
    {
      if Reverse(f) in edges {
        assert Reverse(f) in r;
      }
    }
    forall v | v in r.Values ensures v !in IncidentTags(edges, n) {
      var f :| f in r && r[f] == v;
      forall g | g in edges && edges[g] == v ensures g.0 != n && g.1 != n {
        assert g == f || g == Reverse(f);
      }
    }
    forall v | v in edges.Values - IncidentTags(edges, n) ensures v in r.Values {
      var f :| f in edges && edges[f] == v;
      assert f in r;
    }
  }

  /** The invariant only looks at the directions of the connections in use. */
  lemma ConsistentRestrict<N, C>(edges: map<(N, N), C>, dir: map<C, Dir>, dir': map<C, Dir>)
    requires Consistent(edges, dir)
    requires forall c | c in edges.Values :: c in dir' && dir'[c] == dir[c]
    ensures Consistent(edges, dir')
  {
    forall e | e in edges ensures edges[e] in dir' && dir'[edges[e]] == dir[edges[e]] {
      assert edges[e] in edges.Values;
    }
  }

  /**
   * The edges at n carry distinct connections, except that an edge into n
   * and an edge out of n share one exactly when they are each other's reverse.
   */
  ghost predicate TagsApart<N, C>(edges: map<(N, N), C>, n: N)
  {
    && (forall e, f | e in InEdges(edges, n) && f in InEdges(edges, n) && edges[e] == edges[f] :: e == f)
    && (forall e, f | e in OutEdges(edges, n) && f in OutEdges(edges, n) && edges[e] == edges[f] :: e == f)
    && (forall e, f | e in InEdges(edges, n) && f in OutEdges(edges, n) && edges[e] == edges[f] :: f == Reverse(e))
  }

  /**
   * Each connection on an edge of n sits on at most one edge into n and at
   * most one edge out of n, and on both only as an edge and its reverse.
   */
  lemma IncidentTagsDistinct<N, C>(edges: map<(N, N), C>, dir: map<C, Dir>, n: N)
    requires Consistent(edges, dir)
    ensures TagsApart(edges, n)
  {
  }

  /**
   * What on_conn_dir does to the edges when the direction of c flips, for
   * an edge e tagged c: the reverse is added (unidir to bidir) or e is
   * removed (bidir to unidir). The invariant then holds with c's direction
   * flipped, the same connections are in use, and no new node is joined.
   */
  lemma FlipConsistent<N, C>(edges: map<(N, N), C>, dir: map<C, Dir>, e: (N, N), edges': map<(N, N), C>)
    requires Consistent(edges, dir) && e in edges
    requires dir[edges[e]] == Unidir ==> edges' == AddReverse(edges, e, edges[e])
    requires dir[edges[e]] == Bidir ==> edges' == RemoveEdge(edges, e)
    ensures Consistent(edges', dir[edges[e] := Flipped(dir[edges[e]])])
    ensures edges'.Values == edges.Values
    ensures forall f | f in edges' :: f in edges || f == Reverse(e)
  {
    if dir[edges[e]] == Unidir {
      AddReverseConsistent(edges, dir, e);
    } else {
      RemoveEdgeConsistent(edges, dir, e);
    }
  }
}
