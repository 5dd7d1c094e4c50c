/**
 * The directed editor: element icons on the topology map, the connection
 * widgets between them, and the map that holds the directed topology.
 * Event handlers are methods; a Kivy property assignment that fires its
 * on_<property> handler is modelled as the assignment followed by a call of
 * the handler, made only when the value changes. Each handler states the
 * new state it leaves; the module-level lemmas below prove that the map's
 * bookkeeping (Bookkept) survives each of those new states.
 */
module Elements {
  import opened Common
  import Readiness
  import ElementId
  import Geometry
  import Digraph

  /** Side of the square icon (el_side). */
  const ElSide: real := 50.0

  /** Smallest width and height of a connection widget. */
  const MinConnSide: real := 4.0

  /** The line and the box of connection c are the ones computed from icon a towards icon b. */
  ghost predicate Drawn(c: Connection, a: Icon, b: Icon)
    reads c, a, b
  {
    && c.points == Geometry.GetCoord(a.x, a.y, b.x, b.y, a.elSide)
    && c.box == Geometry.BoundingBox(c.points, MinConnSide)
  }

  /** The icons at either end of an edge. */
  ghost function Ends(edges: map<(Icon, Icon), Connection>): set<Icon>
  {
    (set e | e in edges :: e.0) + (set e | e in edges :: e.1)
  }

  /**
   * After icon n has moved, every connection on an edge out of n is drawn
   * from n, and every connection on an edge into n that has no reverse is
   * drawn towards n.
   */
  ghost predicate LinesFollow(edges: map<(Icon, Icon), Connection>, n: Icon)
    reads edges.Values, Ends(edges)
  {
    && (forall e | e in Digraph.OutEdges(edges, n) :: Drawn(edges[e], e.0, e.1))
    && (forall e | e in Digraph.InEdges(edges, n) && Digraph.Reverse(e) !in edges :: Drawn(edges[e], e.0, e.1))
  }

  /** The direction of each of the connections cs. */
  ghost function Dirs(cs: set<Connection>): map<Connection, Digraph.Dir>
    reads cs
  {
    map c | c in cs :: c.dir
  }

  /**
   * The bookkeeping of a map with these nodes, edges, connections and
   * directions: the connections are exactly the tags of the edges, the
   * edges join nodes, and the tags are consistent with the directions.
   */
  ghost predicate Bookkept(nodes: set<Icon>, edges: map<(Icon, Icon), Connection>, conns: set<Connection>, dirs: map<Connection, Digraph.Dir>)
  {
    && edges.Values == conns
    && (forall e | e in edges :: e.0 in nodes && e.1 in nodes)
    && Digraph.Consistent(edges, dirs)
  }

  /** The topology map: the directed topology and the widgets placed on it. */
  class TopologyMap {
    var x: real
    var y: real
    var width: real
    var height: real
    /** The topology's nodes, which are also the icons placed on the map. */
    var nodes: set<Icon>
    /** The topology's edges, each with the connection widget that draws it. */
    var edges: map<(Icon, Icon), Connection>
    /** The connection widgets placed on the map. */
    var conns: set<Connection>
    /** el_type of the active sidebar tool, if any. */
    var activeType: Option<string>
    /** The icons picked so far by the connection tool. */
    var connectable: seq<Icon>
    /** The element whose parameters the side panel shows. */
    var selected: Icon?
    /** Every connection widget taken off the map, in order, one entry per removal call. */
    ghost var removedConnections: seq<Connection>

    constructor (px: real, py: real, w: real, h: real)
      ensures x == px && y == py && width == w && height == h
      ensures nodes == {} && edges == map[] && conns == {}
      ensures activeType == None && connectable == [] && selected == null && removedConnections == []
      ensures Valid()
    {
      x, y, width, height := px, py, w, h;
      nodes, edges, conns := {}, map[], {};
      activeType, connectable, selected := None, [], null;
      removedConnections := [];
    }

    /** The map's bookkeeping holds, with the directions its connections have now. */
    ghost predicate Valid()
      reads this, conns
    {
      Bookkept(nodes, edges, conns, Dirs(conns))
    }
  }

  /** A connection widget: its direction, its line and its box (pos and size). */
  class Connection {
    var dir: Digraph.Dir
    var points: Geometry.Line
    var box: Geometry.Box

    /** A new connection is bidirectional and boxes its line. */
    constructor (coord: Geometry.Line)
      ensures dir == Digraph.Bidir && points == coord
      ensures box == Geometry.BoundingBox(coord, MinConnSide)
    {
      dir := Digraph.Bidir;
      points := coord;
      box := Geometry.BoundingBox(coord, MinConnSide);
    }

    /** _update: redraws the line from a towards b after an icon has moved. */
    method Update(a: Icon, b: Icon)
      modifies this`points, this`box
      ensures Drawn(this, a, b)
    {
      points := Geometry.GetCoord(a.x, a.y, b.x, b.y, a.elSide);
      box := Geometry.BoundingBox(points, MinConnSide);
    }

    /**
     * on_conn_dir, fired with the new direction: to 'bidir' the single edge
     * tagged with this connection gets its reverse; to 'unidir' one of the
     * two tagged edges (whichever the graph lists second) is removed. Any
     * other number of tagged edges fails the source's assertion: ok is
     * false and the edges are left alone.
     */
    method OnConnDir(host: TopologyMap, value: Digraph.Dir) returns (ok: bool)
      modifies host`edges
      ensures ok <==> |Digraph.Tagged(old(host.edges), this)| == if value == Digraph.Bidir then 1 else 2
      ensures !ok ==> host.edges == old(host.edges)
      ensures ok && value == Digraph.Bidir ==>
                exists e :: Digraph.Tagged(old(host.edges), this) == {e} && host.edges == Digraph.AddReverse(old(host.edges), e, this)
      ensures ok && value == Digraph.Unidir ==>
                exists e :: e in Digraph.Tagged(old(host.edges), this) && host.edges == Digraph.RemoveEdge(old(host.edges), e)
    {
      var tagged := Digraph.Tagged(host.edges, this);
      if value == Digraph.Bidir {
        ok := |tagged| == 1;
        if ok {
          var e :| e in tagged;
          assert tagged == {e} by { SingletonSet(tagged, e); }
          host.edges := host.edges[Digraph.Reverse(e) := this];
        }
      } else {
        ok := |tagged| == 2;
        if ok {
          var e :| e in tagged;
          host.edges := host.edges - {e};
        }
      }
    }

    /**
     * _change_dir: the direction flips, which fires on_conn_dir with the new
     * direction. On a map whose bookkeeping holds the edge count always
     * matches (DirChangesNeverFail) and the bookkeeping survives with the
     * flipped direction (FlipKeeps).
     */
    method ChangeDir(host: TopologyMap) returns (ok: bool)
      modifies this`dir, host`edges
      ensures dir == Digraph.Flipped(old(dir))
      ensures ok <==> |Digraph.Tagged(old(host.edges), this)| == if old(dir) == Digraph.Unidir then 1 else 2
      ensures !ok ==> host.edges == old(host.edges)
      ensures ok && old(dir) == Digraph.Unidir ==>
                exists e :: Digraph.Tagged(old(host.edges), this) == {e} && host.edges == Digraph.AddReverse(old(host.edges), e, this)
      ensures ok && old(dir) == Digraph.Bidir ==>
                exists e :: e in Digraph.Tagged(old(host.edges), this) && host.edges == Digraph.RemoveEdge(old(host.edges), e)
    {
      dir := Digraph.Flipped(dir);
      ok := OnConnDir(host, dir);
    }

    /**
     * _change_dir_src: a unidirectional connection's single edge (u, v) is
     * replaced by (v, u), by adding the reverse and then removing the edge;
     * a bidirectional connection is left alone. A unidirectional connection
     * with another number of edges fails the source's assertion, which on a
     * map whose bookkeeping holds cannot happen (DirChangesNeverFail).
     */
    method ChangeDirSrc(host: TopologyMap) returns (ok: bool)
      modifies host`edges
      ensures dir == Digraph.Bidir ==> ok
      ensures dir == Digraph.Unidir ==> (ok <==> |Digraph.Tagged(old(host.edges), this)| == 1)
      ensures dir == Digraph.Bidir || !ok ==> host.edges == old(host.edges)
      ensures dir == Digraph.Unidir && ok ==>
                exists e :: Digraph.Tagged(old(host.edges), this) == {e} && host.edges == Digraph.SwapSource(old(host.edges), e, this)
    {
      ok := true;
      if dir == Digraph.Unidir {
        var tagged := Digraph.Tagged(host.edges, this);
        ok := |tagged| == 1;
        if ok {
          var e :| e in tagged;
          assert tagged == {e} by { SingletonSet(tagged, e); }
          ghost var edges0 := host.edges;
          host.edges := host.edges[Digraph.Reverse(e) := this];
          host.edges := host.edges - {e};
          assert host.edges == Digraph.SwapSource(edges0, e, this);
        }
      }
    }

    /**
     * The touch handler of a connection. A touch inside the widget and close
     * enough to the line (the closeness test is a parameter) is consumed;
     * with the REMOVE tool it also deletes every edge tagged with this
     * connection and takes the connection off the map (RemoveTaggedKeeps).
     */
    method OnTouchDown(host: TopologyMap, tx: real, ty: real, veryClose: bool) returns (t: Touch)
      modifies host`edges, host`conns, host`removedConnections
      ensures t == Consumed <==> Geometry.CollidePoint(box, tx, ty) && veryClose
      ensures t == Consumed && host.activeType == Some(RemoveTool) ==>
                && host.edges == Digraph.RemoveTagged(old(host.edges), this)
                && host.conns == old(host.conns) - {this}
                && host.removedConnections == old(host.removedConnections) + [this]
      ensures !(t == Consumed && host.activeType == Some(RemoveTool)) ==>
                && host.edges == old(host.edges) && host.conns == old(host.conns)
                && host.removedConnections == old(host.removedConnections)
    {
      t := PassedOn;
      if Geometry.CollidePoint(box, tx, ty) && veryClose {
        if host.activeType == Some(RemoveTool) {
          host.edges := RemoveEdgesOf(host.edges, this);
          host.conns := host.conns - {this};
          host.removedConnections := host.removedConnections + [this];
        }
        t := Consumed;
      }
    }
  }

  /**
   * The REMOVE loop of a connection's touch handler: every edge whose obj is
   * c is removed, one after the other.
   */
  method RemoveEdgesOf(edges: map<(Icon, Icon), Connection>, c: Connection) returns (r: map<(Icon, Icon), Connection>)
    ensures r == Digraph.RemoveTagged(edges, c)
  {
    r := edges;
    var todo := Digraph.Tagged(edges, c);
    ghost var tagged := todo;
    while todo != {}
      invariant todo <= tagged
      invariant r == map e | e in edges && (e !in tagged || e in todo) :: edges[e]
      decreases |todo|
    {
      var e :| e in todo;
      r := r - {e};
      todo := todo - {e};
    }
  }

  /** No other edge of es carries the connection on edge e. */
  ghost predicate Alone(edges: map<(Icon, Icon), Connection>, es: set<(Icon, Icon)>, e: (Icon, Icon))
    requires es <= edges.Keys && e in es
  {
    forall f | f in es && edges[f] == edges[e] :: f == e
  }

  /**
   * One pass of the line-update loop: the connection on each edge of es is
   * redrawn along that edge, in some order. A connection on only one edge
   * of es ends up drawn along it; the other connections are not touched,
   * and no direction changes.
   */
  method RedrawEach(edges: map<(Icon, Icon), Connection>, es: set<(Icon, Icon)>)
    requires es <= edges.Keys
    modifies Digraph.TagsOn(edges, es)
    ensures forall c | c in edges.Values :: c.dir == old(c.dir)
    ensures forall c | c in edges.Values && c !in Digraph.TagsOn(edges, es) :: c.points == old(c.points) && c.box == old(c.box)
    ensures forall e | e in es && Alone(edges, es, e) :: Drawn(edges[e], e.0, e.1)
  {
    var todo := es;
    while todo != {}
      invariant todo <= es
      invariant forall c | c in edges.Values :: c.dir == old(c.dir)
      invariant forall e | e in es - todo && Alone(edges, es, e) :: Drawn(edges[e], e.0, e.1)
      decreases |todo|
    {
      var e :| e in todo;
      edges[e].Update(e.0, e.1);
      todo := todo - {e};
    }
  }

  /** An element icon on the map. */
  class Icon {
    var x: real
    var y: real
    var width: real
    var height: real
    const elSide: real
    var params: Readiness.Params
    var ready: bool
    const id: string

    /**
     * A new element: class-default parameters, an identifier from three
     * draws, and the readiness that the constructor's ready = True (in
     * Automatic mode) and the check it fires leave behind.
     */
    constructor (kind: Readiness.Kind, px: real, py: real, w: real, h: real, mode: string, d0: nat, d1: nat, d2: nat)
      requires d0 < 9 && d1 < 9 && d2 < 9
      ensures x == px && y == py && width == w && height == h && elSide == ElSide
      ensures params == Readiness.Defaults(kind) && id == ElementId.IconId(d0, d1, d2)
      ensures ready == Readiness.InitialReady(kind, mode)
    {
      x, y, width, height := px, py, w, h;
      elSide := ElSide;
      params := Readiness.Defaults(kind);
      id := ElementId.IconId(d0, d1, d2);
      ready := false;
      new;
      if mode == Readiness.Automatic {
        ready := true;
        // on_ready: the check runs with the current mode; Automatic never reads the catalog
        var _ := EnsureReady(mode, map[]);
      }
    }

    /** The square the icon takes on the map. */
    function Bounds(): Geometry.Box
      reads this
    {
      Geometry.Box(x, y, width, height)
    }

    /**
     * The touch handler of an icon. A touch on the icon with the REMOVE tool
     * runs the cascade (Remove); with the CONNECTION tool the icon joins the
     * pending pair unless it is already in it, and connect says that the
     * pair is complete; with any other tool (or none) the icon becomes the
     * selected element and the touch goes on to the drag behaviour.
     */
    method OnTouchDown(host: TopologyMap, tx: real, ty: real) returns (t: Touch, connect: bool, ghost removed: seq<Connection>)
      requires this in host.nodes
      modifies host`edges, host`nodes, host`conns, host`removedConnections, host`connectable, host`selected
      ensures var hit := Geometry.CollidePoint(Bounds(), tx, ty);
              && (t == Consumed <==> hit && (host.activeType == Some(RemoveTool) || host.activeType == Some(ConnectionTool)))
              && (connect <==> hit && host.activeType == Some(ConnectionTool) && |host.connectable| == 2)
      ensures Geometry.CollidePoint(Bounds(), tx, ty) && host.activeType == Some(RemoveTool) ==>
                && host.edges == Digraph.RemoveNode(old(host.edges), this)
                && host.nodes == old(host.nodes) - {this}
                && host.conns == old(host.conns) - Digraph.IncidentTags(old(host.edges), this)
                && host.removedConnections == old(host.removedConnections) + removed
                && Cascade(removed, old(host.edges), this)
                && host.connectable == old(host.connectable) && host.selected == old(host.selected)
      ensures Geometry.CollidePoint(Bounds(), tx, ty) && host.activeType == Some(ConnectionTool) ==>
                && host.connectable == Pick(old(host.connectable), this)
                && host.edges == old(host.edges) && host.nodes == old(host.nodes) && host.conns == old(host.conns)
                && host.removedConnections == old(host.removedConnections) && host.selected == old(host.selected)
      ensures !(Geometry.CollidePoint(Bounds(), tx, ty) && (host.activeType == Some(RemoveTool) || host.activeType == Some(ConnectionTool))) ==>
                && host.selected == (if Geometry.CollidePoint(Bounds(), tx, ty) then this else old(host.selected))
                && host.edges == old(host.edges) && host.nodes == old(host.nodes) && host.conns == old(host.conns)
                && host.removedConnections == old(host.removedConnections) && host.connectable == old(host.connectable)
    {
      t, connect, removed := PassedOn, false, [];
      if !Geometry.CollidePoint(Bounds(), tx, ty) {
        return;
      }
      if host.activeType == Some(RemoveTool) {
        removed := Remove(host);
        t := Consumed;
      } else if host.activeType == Some(ConnectionTool) {
        host.connectable := Pick(host.connectable, this);
        connect := |host.connectable| == 2;
        t := Consumed;
      } else {
        host.selected := this;
      }
    }

    /**
     * The REMOVE cascade of the icon's touch handler: every connection on
     * an edge into or out of the icon is taken off the map
     * (TakeOffConnections), then the node goes from the topology with all
     * its edges (RemoveNodeKeeps).
     */
    method Remove(host: TopologyMap) returns (ghost removed: seq<Connection>)
      requires this in host.nodes
      modifies host`edges, host`nodes, host`conns, host`removedConnections
      ensures host.edges == Digraph.RemoveNode(old(host.edges), this)
      ensures host.nodes == old(host.nodes) - {this}
      ensures host.conns == old(host.conns) - Digraph.IncidentTags(old(host.edges), this)
      ensures host.removedConnections == old(host.removedConnections) + removed
      ensures Cascade(removed, old(host.edges), this)
    {
      host.conns, removed := TakeOffConnections(host.edges, this, host.conns);
      host.removedConnections := host.removedConnections + removed;
      host.edges := Digraph.RemoveNode(host.edges, this);
      host.nodes := host.nodes - {this};
    }

    /**
     * The line-update loop of on_pos: the connection on each edge into the
     * icon, then on each edge out of it, is redrawn from the edge's source
     * towards its target, once per edge. When no two of those edges share a
     * connection except an edge and its reverse (TagsApart, which the
     * bookkeeping guarantees by Digraph.IncidentTagsDistinct), every
     * outgoing connection ends up drawn from this icon and every incoming
     * one without a reverse towards it.
     */
    method UpdateLines(host: TopologyMap)
      requires this in host.nodes
      modifies host.edges.Values
      ensures forall c | c in host.edges.Values :: c.dir == old(c.dir)
      ensures forall c | c in host.edges.Values && c !in Digraph.IncidentTags(host.edges, this) ::
                c.points == old(c.points) && c.box == old(c.box)
      ensures Digraph.TagsApart(host.edges, this) ==> LinesFollow(host.edges, this)
    {
      var edges := host.edges;
      var ins := Digraph.InEdges(edges, this);
      var outs := Digraph.OutEdges(edges, this);
      RedrawEach(edges, ins);
      RedrawEach(edges, outs);
      assert Digraph.IncidentTags(edges, this) == Digraph.TagsOn(edges, ins) + Digraph.TagsOn(edges, outs);
      if Digraph.TagsApart(edges, this) {
        forall e | e in ins && Digraph.Reverse(e) !in edges
          ensures edges[e] !in Digraph.TagsOn(edges, outs)
        {
        }
      }
    }

    /** How many of the icon's two axes stick out of the map. */
    ghost function OutOfBounds(host: TopologyMap): nat
      reads this, host
    {
      (if Geometry.ClampAxisFixed(x, width, host.x, host.width, host.x) == x then 0 else 1)
      + (if Geometry.ClampAxisFixed(y, height, host.y, host.height, host.y) == y then 0 else 1)
    }

    /**
     * on_pos: on the map, the incident connections are redrawn and the icon
     * is then clamped into the map on x and on y. Each clamping assignment
     * fires on_pos again, which redraws the lines at the new position. Off
     * the map nothing happens. The clamp is the corrected one
     * (Geometry.ClampAxisFixed): with the source's clamp an icon larger than
     * the map is moved by every clamping and on_pos never returns
     * (Geometry.ClampNeverSettles).
     */
    method OnPos(host: TopologyMap?)
      requires host != null ==> this in host.nodes
      modifies this`x, this`y, if host != null then host.edges.Values else {}
      ensures host == null ==> x == old(x) && y == old(y)
      ensures host != null ==>
                && x == Geometry.ClampAxisFixed(old(x), width, host.x, host.width, host.x)
                && y == Geometry.ClampAxisFixed(old(y), height, host.y, host.height, host.y)
      ensures host != null && width <= host.width ==> host.x <= x + host.x && x + width + host.x <= host.x + host.width
      ensures host != null && height <= host.height ==> host.y <= y + host.y && y + height + host.y <= host.y + host.height
      ensures host != null && width > host.width ==> x + host.x == host.x
      ensures host != null && height > host.height ==> y + host.y == host.y
      ensures host != null ==> forall c | c in host.edges.Values :: c.dir == old(c.dir)
      ensures host != null ==>
                forall c | c in host.edges.Values && c !in Digraph.IncidentTags(host.edges, this) ::
                  c.points == old(c.points) && c.box == old(c.box)
      ensures host != null && Digraph.TagsApart(host.edges, this) ==> LinesFollow(host.edges, this)
      decreases if host != null then OutOfBounds(host) else 0
    {
      if host == null {
        return;
      }
      UpdateLines(host);
      var nx := Geometry.ClampAxisFixed(x, width, host.x, host.width, host.x);
      Geometry.ClampAxisFixedSettles(x, width, host.x, host.width, host.x);
      if nx != x {
        x := nx;
        OnPos(host);
      }
      var ny := Geometry.ClampAxisFixed(y, height, host.y, host.height, host.y);
      Geometry.ClampAxisFixedSettles(y, height, host.y, host.height, host.y);
      if ny != y {
        y := ny;
        OnPos(host);
      }
    }

    /**
     * _ensure_ready: sets ready from the parameters, or leaves it as it was
     * when the amplifier's catalog lookup fails. A change of ready fires
     * the same check again, which gives the same value.
     */
    method EnsureReady(mode: string, catalog: Readiness.Catalog) returns (r: Readiness.Outcome)
      modifies this`ready
      ensures r == Readiness.EnsureReady(params, mode, catalog)
      ensures ready == if r.Ready? then r.value else old(ready)
    {
      r := Readiness.EnsureReady(params, mode, catalog);
      if r.Ready? {
        ready := r.value;
      }
    }
  }

  /**
   * On a map whose bookkeeping holds, the source's assertions in
   * on_conn_dir (through _change_dir) and in _change_dir_src never fail: a
   * unidirectional connection tags one edge, a bidirectional one two.
   */
  lemma DirChangesNeverFail(nodes: set<Icon>, edges: map<(Icon, Icon), Connection>, conns: set<Connection>,
                            dirs: map<Connection, Digraph.Dir>, c: Connection)
    requires Bookkept(nodes, edges, conns, dirs) && c in conns
    ensures c in dirs
    ensures |Digraph.Tagged(edges, c)| == if dirs[c] == Digraph.Unidir then 1 else 2
  {
    Digraph.TaggedCount(edges, dirs, c);
  }

  /** A direction change keeps the bookkeeping, with the flipped direction. */
  lemma FlipKeeps(nodes: set<Icon>, edges: map<(Icon, Icon), Connection>, conns: set<Connection>,
                  dirs: map<Connection, Digraph.Dir>, e: (Icon, Icon), edges': map<(Icon, Icon), Connection>)
    requires Bookkept(nodes, edges, conns, dirs) && e in edges
    requires dirs[edges[e]] == Digraph.Unidir ==> edges' == Digraph.AddReverse(edges, e, edges[e])
    requires dirs[edges[e]] == Digraph.Bidir ==> edges' == Digraph.RemoveEdge(edges, e)
    ensures Bookkept(nodes, edges', conns, dirs[edges[e] := Digraph.Flipped(dirs[edges[e]])])
  {
    Digraph.FlipConsistent(edges, dirs, e, edges');
  }

  /** Swapping the source of a unidirectional connection keeps the bookkeeping. */
  lemma SwapKeeps(nodes: set<Icon>, edges: map<(Icon, Icon), Connection>, conns: set<Connection>,
                  dirs: map<Connection, Digraph.Dir>, e: (Icon, Icon))
    requires Bookkept(nodes, edges, conns, dirs) && e in edges && dirs[edges[e]] == Digraph.Unidir
    ensures Bookkept(nodes, Digraph.SwapSource(edges, e, edges[e]), conns, dirs)
  {
    Digraph.SwapSourceConsistent(edges, dirs, e);
  }

  /**
   * Removing every edge tagged with c, and c itself, keeps the bookkeeping
   * under any directions that agree on the connections left.
   */
  lemma RemoveTaggedKeeps(nodes: set<Icon>, edges: map<(Icon, Icon), Connection>, conns: set<Connection>,
                          dirs: map<Connection, Digraph.Dir>, c: Connection, dirs': map<Connection, Digraph.Dir>)
    requires Bookkept(nodes, edges, conns, dirs)
    requires forall d | d in conns - {c} :: d in dirs' && dirs'[d] == dirs[d]
    ensures Bookkept(nodes, Digraph.RemoveTagged(edges, c), conns - {c}, dirs')
  {
    Digraph.RemoveTaggedConsistent(edges, dirs, c);
    Digraph.ConsistentRestrict(Digraph.RemoveTagged(edges, c), dirs, dirs');
  }

  /** The edges of es on which c is the connection. */
  ghost function OnEdges(edges: map<(Icon, Icon), Connection>, es: set<(Icon, Icon)>, c: Connection): set<(Icon, Icon)>
  {
    set e | e in es && e in edges && edges[e] == c
  }

  /**
   * The connections the REMOVE cascade on node n takes off the map, in
   * order: one entry for each edge into or out of n, the connection on it,
   * so each connection is listed once per incident edge it is on.
   */
  ghost predicate Cascade(removed: seq<Connection>, edges: map<(Icon, Icon), Connection>, n: Icon)
  {
    var incident := Digraph.InEdges(edges, n) + Digraph.OutEdges(edges, n);
    && |removed| == |incident|
    && (forall i | 0 <= i < |removed| :: removed[i] in Digraph.IncidentTags(edges, n))
    && (forall c | c in edges.Values :: multiset(removed)[c] == |OnEdges(edges, incident, c)|)
  }

  /**
   * The loop of the REMOVE cascade on node n: the connection on each edge
   * into or out of n is taken off the map, once per edge (in-edges first;
   * a bidirectional connection is taken off twice). removed lists the
   * connections taken off, in order.
   */
  method TakeOffConnections(edges: map<(Icon, Icon), Connection>, n: Icon, conns: set<Connection>)
    returns (conns': set<Connection>, ghost removed: seq<Connection>)
    ensures conns' == conns - Digraph.IncidentTags(edges, n)
    ensures Cascade(removed, edges, n)
  {
    conns', removed := conns, [];
    // the order of the visits (in-edges first) is not modelled
    var incident := Digraph.InEdges(edges, n) + Digraph.OutEdges(edges, n);
    var todo := incident;
    assert incident - todo == {};
    CascadeStart(edges, n, conns);
    while todo != {}
      invariant todo <= incident
      invariant CascadeSoFar(edges, n, conns, incident - todo, conns', removed)
      decreases |todo|
    {
      var e :| e in todo;
      CascadeStep(edges, n, conns, incident - todo, conns', removed, e);
      VisitOne(incident, todo, e);
      var c := edges[e];
      conns' := conns' - {c};
      removed := removed + [c];
      todo := todo - {e};
    }
    assert incident - todo == incident;
    CascadeEnd(edges, n, conns, conns', removed);
  }

  /**
   * Loop state of the cascade on node n, with done the incident edges
   * visited so far: the connections on them are off the map, and removed
   * lists each connection once per visited edge it is on.
   */
  ghost predicate CascadeSoFar(edges: map<(Icon, Icon), Connection>, n: Icon, conns0: set<Connection>,
                               done: set<(Icon, Icon)>, conns: set<Connection>, removed: seq<Connection>)
  {
    && done <= Digraph.InEdges(edges, n) + Digraph.OutEdges(edges, n)
    && conns == conns0 - Digraph.TagsOn(edges, done)
    && |removed| == |done|
    && (forall i | 0 <= i < |removed| :: removed[i] in Digraph.IncidentTags(edges, n))
    && (forall c | c in edges.Values :: multiset(removed)[c] == |OnEdges(edges, done, c)|)
  }

  /** Before the first visit nothing is off the map and nothing is listed. */
  lemma CascadeStart(edges: map<(Icon, Icon), Connection>, n: Icon, conns0: set<Connection>)
    ensures CascadeSoFar(edges, n, conns0, {}, conns0, [])
  {
    assert Digraph.TagsOn(edges, {}) == {};
    forall c | c in edges.Values ensures |OnEdges(edges, {}, c)| == 0 {
      assert OnEdges(edges, {}, c) == {};
    }
  }

  /** Visiting the incident edge e keeps the loop state. */
  lemma CascadeStep(edges: map<(Icon, Icon), Connection>, n: Icon, conns0: set<Connection>,
                    done: set<(Icon, Icon)>, conns: set<Connection>, removed: seq<Connection>, e: (Icon, Icon))
    requires CascadeSoFar(edges, n, conns0, done, conns, removed)
    requires e in Digraph.InEdges(edges, n) + Digraph.OutEdges(edges, n) && e !in done
    ensures e in edges
    ensures CascadeSoFar(edges, n, conns0, done + {e}, conns - {edges[e]}, removed + [edges[e]])
  {
    assert edges[e] in Digraph.IncidentTags(edges, n);
    Digraph.TagsOnInsert(edges, done, e);
    CountStep(edges, done, removed, e);
  }

  /** Taking e from the edges still to visit adds it to the visited ones. */
  lemma VisitOne<T>(all: set<T>, todo: set<T>, e: T)
    requires e in todo && todo <= all
    ensures all - (todo - {e}) == (all - todo) + {e}
  {
  }

  /** Visiting edge e adds one entry for its connection and none for any other. */
  lemma CountStep(edges: map<(Icon, Icon), Connection>, done: set<(Icon, Icon)>, removed: seq<Connection>, e: (Icon, Icon))
    requires e in edges && e !in done
    requires forall c | c in edges.Values :: multiset(removed)[c] == |OnEdges(edges, done, c)|
    ensures forall c | c in edges.Values :: multiset(removed + [edges[e]])[c] == |OnEdges(edges, done + {e}, c)|
  {
    forall c | c in edges.Values ensures multiset(removed + [edges[e]])[c] == |OnEdges(edges, done + {e}, c)| {
      OnEdgesInsert(edges, done, e, c);
    }
  }

  /** Adding edge e to the visited ones adds e to the edges of its own connection only. */
  lemma OnEdgesInsert(edges: map<(Icon, Icon), Connection>, done: set<(Icon, Icon)>, e: (Icon, Icon), c: Connection)
    requires e in edges && e !in done
    ensures |OnEdges(edges, done + {e}, c)| == |OnEdges(edges, done, c)| + if edges[e] == c then 1 else 0
  {
    if edges[e] == c {
      assert OnEdges(edges, done + {e}, c) == OnEdges(edges, done, c) + {e};
    } else {
      assert OnEdges(edges, done + {e}, c) == OnEdges(edges, done, c);
    }
  }

  /** Once every incident edge is visited, the cascade is complete. */
  lemma CascadeEnd(edges: map<(Icon, Icon), Connection>, n: Icon, conns0: set<Connection>,
                   conns: set<Connection>, removed: seq<Connection>)
    requires CascadeSoFar(edges, n, conns0, Digraph.InEdges(edges, n) + Digraph.OutEdges(edges, n), conns, removed)
    ensures conns == conns0 - Digraph.IncidentTags(edges, n)
    ensures Cascade(removed, edges, n)
  {
  }

  /**
   * The cascade as written takes a bidirectional connection off the map
   * twice, once for each of its two edges, and a unidirectional one once:
   * the per-iteration list that was meant to prevent repeats is empty at
   * every test.
   */
  lemma {:induction false} CascadeRepeatsBidir(nodes: set<Icon>, edges: map<(Icon, Icon), Connection>, conns: set<Connection>,
                                               dirs: map<Connection, Digraph.Dir>, n: Icon, removed: seq<Connection>, c: Connection)
    requires Bookkept(nodes, edges, conns, dirs) && Cascade(removed, edges, n) && c in Digraph.IncidentTags(edges, n)
    ensures c in dirs
    ensures multiset(removed)[c] == if dirs[c] == Digraph.Bidir then 2 else 1
  {
    var incident := Digraph.InEdges(edges, n) + Digraph.OutEdges(edges, n);
    var e :| e in incident && e in edges && edges[e] == c;
    Digraph.TaggedOfEdge(edges, dirs, e);
    assert OnEdges(edges, incident, c) == Digraph.Tagged(edges, c);
  }

  /**
   * Removing node n, with every connection on its edges, keeps the
   * bookkeeping under any directions that agree on the connections left.
   */
  lemma RemoveNodeKeeps(nodes: set<Icon>, edges: map<(Icon, Icon), Connection>, conns: set<Connection>,
                        dirs: map<Connection, Digraph.Dir>, n: Icon, dirs': map<Connection, Digraph.Dir>)
    requires Bookkept(nodes, edges, conns, dirs)
    requires forall d | d in conns - Digraph.IncidentTags(edges, n) :: d in dirs' && dirs'[d] == dirs[d]
    ensures Bookkept(nodes - {n}, Digraph.RemoveNode(edges, n), conns - Digraph.IncidentTags(edges, n), dirs')
  {
    var r := Digraph.RemoveNode(edges, n);
    Digraph.RemoveNodeConsistent(edges, dirs, n);
    Digraph.ConsistentRestrict(r, dirs, dirs');
    forall e | e in r ensures e.0 != n && e.1 != n {
      assert e !in Digraph.InEdges(edges, n) && e !in Digraph.OutEdges(edges, n);
    }
  }

  /** A set of one element is that element's singleton. */
  lemma SingletonSet<T>(s: set<T>, x: T)
    requires |s| == 1 && x in s
    ensures s == {x}
  {
    assert |s - {x}| == 0;
    assert s - {x} == {};
  }
}
