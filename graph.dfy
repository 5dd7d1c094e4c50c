/**
 * The undirected topology of the earlier editor: a networkx Graph whose
 * edges carry the connection widget that draws them. The adjacency is
 * stored in both directions, as networkx does, so an edge {a, b} is the
 * two map entries (a, b) and (b, a) with the same connection.
 */
module Graph {
  /** Both directions of every edge are stored, with the same connection. */
  ghost predicate Symmetric<N, C>(adj: map<(N, N), C>)
  {
    forall e | e in adj :: (e.1, e.0) in adj && adj[(e.1, e.0)] == adj[e]
  }

  /**
   * The invariant the editor keeps: symmetric adjacency, no self-loops, and
   * each connection on one node pair only.
   */
  ghost predicate Simple<N, C>(adj: map<(N, N), C>)
  {
    && Symmetric(adj)
    && (forall e | e in adj :: e.0 != e.1)
    && (forall e, f | e in adj && f in adj && adj[e] == adj[f] :: f == e || f == (e.1, e.0))
  }

  /** has_edge(a, b); on a symmetric adjacency it does not depend on the order of a and b. */
  predicate HasEdge<N(==), C>(adj: map<(N, N), C>, a: N, b: N)
    ensures Symmetric(adj) ==> (HasEdge(adj, a, b) <==> (b, a) in adj)
  {
    (a, b) in adj
  }

  /** add_edge(a, b, obj=c): the edge is stored both ways, replacing any earlier one. */
  function AddEdge<N(==), C>(adj: map<(N, N), C>, a: N, b: N, c: C): (r: map<(N, N), C>)
    ensures HasEdge(r, a, b) && HasEdge(r, b, a) && r[(a, b)] == c && r[(b, a)] == c
    ensures forall e | e in adj && e != (a, b) && e != (b, a) :: e in r && r[e] == adj[e]
    ensures forall e | e in r :: e in adj || e == (a, b) || e == (b, a)
  {
    adj[(a, b) := c][(b, a) := c]
  }

  /** The neighbours of n, that is the far ends of edges(n). */
  function Neighbours<N(==), C>(adj: map<(N, N), C>, n: N): set<N>
  {
    set e | e in adj && e.0 == n :: e.1
  }

  /** The connections on the edges of n. */
  function IncidentTags<N(==), C>(adj: map<(N, N), C>, n: N): set<C>
  {
    set e | e in adj && e.0 == n :: adj[e]
  }

  /** remove_node(n): n and every edge of n go. */
  function RemoveNode<N(==), C>(adj: map<(N, N), C>, n: N): (r: map<(N, N), C>)
    ensures forall e | e in adj :: e in r <==> e.0 != n && e.1 != n
    ensures forall e | e in r :: e in adj && r[e] == adj[e]
  {
    map e | e in adj && e.0 != n && e.1 != n :: adj[e]
  }

  /**
   * Adding a new connection c between two distinct nodes that are not yet
   * joined keeps the invariant, and the connections of the graph gain c.
   */
  lemma {:induction false} AddEdgeSimple<N, C>(adj: map<(N, N), C>, a: N, b: N, c: C)
    requires Simple(adj) && a != b && !HasEdge(adj, a, b) && c !in adj.Values
    ensures Simple(AddEdge(adj, a, b, c))
    ensures AddEdge(adj, a, b, c).Values == adj.Values + {c}
  {
    var r := AddEdge(adj, a, b, c);
    assert HasEdge(adj, b, a) <==> HasEdge(adj, a, b);
    forall e, f | e in r && f in r && r[e] == r[f]
      ensures f == e || f == (e.1, e.0)
    {
      if r[e] == c {
        assert e == (a, b) || e == (b, a);
        assert f == (a, b) || f == (b, a);
      }
    }
    forall v | v in adj.Values ensures v in r.Values {
      var f :| f in adj && adj[f] == v;
      assert f != (a, b) && f != (b, a);
      assert f in r;
    }
    assert (a, b) in r;
  }

  /**
   * Why the editor asks has_edge first: adding an edge over an existing one
   * drops the old connection from the graph, while its widget stays on the
   * map.
   */
  lemma {:induction false} AddEdgeOverExisting<N, C>(adj: map<(N, N), C>, a: N, b: N, c: C)
    requires Simple(adj) && HasEdge(adj, a, b) && c !in adj.Values
    ensures adj[(a, b)] !in AddEdge(adj, a, b, c).Values
  {
    var old_c := adj[(a, b)];
    var r := AddEdge(adj, a, b, c);
    forall e | e in adj && adj[e] == old_c ensures e == (a, b) || e == (b, a) {
      assert adj[(a, b)] == adj[e];
    }
    forall e | e in r ensures r[e] != old_c {
      if e != (a, b) && e != (b, a) {
        assert e in adj && r[e] == adj[e];
      }
    }
  }

  /**
   * Removing a node keeps the invariant, leaves the node with no edges, and
   * removes exactly the connections on its edges.
   */
  lemma {:induction false} RemoveNodeSimple<N, C>(adj: map<(N, N), C>, n: N)
    requires Simple(adj)
    ensures Simple(RemoveNode(adj, n))
    ensures Neighbours(RemoveNode(adj, n), n) == {}
    ensures RemoveNode(adj, n).Values == adj.Values - IncidentTags(adj, n)
  {
    var r := RemoveNode(adj, n);
    forall e | e in r ensures (e.1, e.0) in r && r[(e.1, e.0)] == r[e] {
      assert (e.1, e.0) in adj;
    }
    forall v | v in r.Values ensures v !in IncidentTags(adj, n) {
      var f :| f in r && r[f] == v;
      forall g | g in adj && adj[g] == v ensures g.0 != n {
        assert g == f || g == (f.1, f.0);
      }
    }
    forall v | v in adj.Values - IncidentTags(adj, n) ensures v in r.Values {
      var f :| f in adj && adj[f] == v;
      assert (f.1, f.0) in adj && adj[(f.1, f.0)] == v;
      assert f in r;
    }
  }
}
