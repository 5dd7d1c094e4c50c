/**
 * The earlier, undirected editor: the sidebar tools, the topology map that
 * places new elements and joins pairs of them, the element icons and the
 * connection widgets, over an undirected networkx Graph (module Graph).
 * As in module Elements, a Kivy property assignment that fires its
 * on_<property> handler is the assignment followed by a call of the
 * handler, made only when the value changes, and each handler states the
 * new state it leaves; the lemmas at the end prove that the map's
 * bookkeeping (Kept) survives those new states.
 */
module MainApp {
  import opened Common
  import ElementId
  import Geometry
  import Graph

  /** Offset from the touch to the new icon's corner, on both axes. */
  const PlaceOffset: real := 25.0

  /** The two states of a sidebar toggle button. */
  datatype ToggleState = Normal | Down

  /** The line between the centres of boxes a and b. */
  function CentreToCentre(a: Geometry.Box, b: Geometry.Box): (l: Geometry.Line)
    ensures l.x1 - a.x == a.x + a.width - l.x1 && l.y1 - a.y == a.y + a.height - l.y1
    ensures l.x2 - b.x == b.x + b.width - l.x2 && l.y2 - b.y == b.y + b.height - l.y2
  {
    Geometry.Line(a.x + a.width / 2.0, a.y + a.height / 2.0, b.x + b.width / 2.0, b.y + b.height / 2.0)
  }

  /** Connection c is drawn from the centre of a to the centre of b, boxed exactly. */
  ghost predicate Drawn(c: Connection, a: Icon, b: Icon)
    reads c, a, b
  {
    && c.points == CentreToCentre(a.Bounds(), b.Bounds())
    && c.box == Geometry.BoundingBox(c.points, 0.0)
  }

  /**
   * The bookkeeping of the map: the connections on the map are exactly the
   * ones on the graph's edges, the graph is simple (symmetric, no
   * self-loops, one pair per connection) and its edges join nodes.
   */
  ghost predicate Kept(nodes: set<Icon>, adj: map<(Icon, Icon), Connection>, conns: set<Connection>)
  {
    && adj.Values == conns
    && Graph.Simple(adj)
    && (forall e | e in adj :: e.0 in nodes && e.1 in nodes)
  }

  /**
   * What holds of the pending pair between events: at most one icon is
   * waiting, a tool is active only while its button is pressed, and no icon
   * waits while no tool is active. toolActive and toolDown are whether
   * active_icon is set and whether it is pressed.
   */
  predicate Pending(toolActive: bool, toolDown: bool, connectable: seq<Icon>)
  {
    && |connectable| <= 1
    && (toolActive ==> toolDown)
    && (!toolActive ==> connectable == [])
  }

  /** A tool of the sidebar: an element type, or the REMOVE or CONNECTION tool. */
  class SidebarIcon {
    var state: ToggleState
    const elType: string

    constructor (t: string)
      ensures state == Normal && elType == t
    {
      state := Normal;
      elType := t;
    }

    /**
     * on_state: pressing the tool makes it the map's active tool; releasing
     * it leaves the map with no active tool and no pending pair.
     */
    method OnState(host: TopologyMap)
      modifies host`activeIcon, host`connectable
      ensures state == Down ==> host.activeIcon == this && host.connectable == old(host.connectable)
      ensures state == Normal ==> host.activeIcon == null && host.connectable == []
      ensures old(host.PendingOk()) ==> host.PendingOk()
    {
      if state == Down {
        host.activeIcon := this;
      } else {
        host.activeIcon := null;
        host.connectable := [];
      }
    }

    /** An assignment to state, which fires on_state when the value changes. */
    method SetState(host: TopologyMap, value: ToggleState)
      modifies this`state, host`activeIcon, host`connectable
      ensures state == value
      ensures old(state) == value ==> host.activeIcon == old(host.activeIcon) && host.connectable == old(host.connectable)
      ensures old(state) != value && value == Down ==> host.activeIcon == this && host.connectable == old(host.connectable)
      ensures old(state) != value && value == Normal ==> host.activeIcon == null && host.connectable == []
      ensures old(host.PendingOk()) ==> host.PendingOk()
    {
      if state != value {
        state := value;
        OnState(host);
      }
    }
  }

  /** The topology map: a relative layout holding the icons, the connections and the graph. */
  class TopologyMap {
    var x: real
    var y: real
    var width: real
    var height: real
    /** The graph's nodes, which are the icons placed on the map. */
    var nodes: set<Icon>
    /** The graph's edges, both ways, each with the connection that draws it. */
    var adj: map<(Icon, Icon), Connection>
    /** The connection widgets on the map. */
    var conns: set<Connection>
    /** The pressed sidebar tool, if any (active_icon). */
    var activeIcon: SidebarIcon?
    /** The icons picked so far by the connection tool (connectable_el). */
    var connectable: seq<Icon>

    constructor (px: real, py: real, w: real, h: real)
      ensures x == px && y == py && width == w && height == h
      ensures nodes == {} && adj == map[] && conns == {} && activeIcon == null && connectable == []
      ensures Kept(nodes, adj, conns)
    {
      x, y, width, height := px, py, w, h;
      nodes, adj, conns := {}, map[], {};
      activeIcon, connectable := null, [];
    }

    /** The map's own rectangle, in its parent's coordinates. */
    function Bounds(): Geometry.Box
      reads this
    {
      Geometry.Box(x, y, width, height)
    }

    /** The active tool is the one named tool. */
    predicate ToolIs(tool: string)
      reads this
    {
      activeIcon != null && activeIcon.elType == tool
    }

    /** Pending of the map's own state. */
    predicate PendingOk()
      reads this, activeIcon
    {
      Pending(activeIcon != null, activeIcon != null && activeIcon.state == Down, connectable)
    }

    /**
     * The map's touch handler. With an element tool active and the touch
     * on the map, a new icon of that type is placed with its corner 25
     * below and left of the touch, in the map's own coordinates, and
     * becomes a node; the touch is consumed. Otherwise nothing changes and
     * the touch goes on to the children. The icon's size and the three
     * identifier draws are parameters.
     */
    method OnTouchDown(tx: real, ty: real, w: real, h: real, d0: nat, d1: nat, d2: nat) returns (t: Touch, icon: Icon?)
      requires d0 < 9 && d1 < 9 && d2 < 9
      modifies this`nodes
      ensures var place := activeIcon != null && Geometry.CollidePoint(Bounds(), tx, ty)
                           && !ToolIs(RemoveTool) && !ToolIs(ConnectionTool);
              && (t == Consumed <==> place)
              && (place ==> && icon != null && fresh(icon) && nodes == old(nodes) + {icon}
                            && icon.x == tx - PlaceOffset - x && icon.y == ty - PlaceOffset - y
                            && icon.width == w && icon.height == h
                            && icon.elType == activeIcon.elType && icon.id == ElementId.IconId(d0, d1, d2))
              && (!place ==> icon == null && nodes == old(nodes))
    {
      t, icon := PassedOn, null;
      if activeIcon != null && Geometry.CollidePoint(Bounds(), tx, ty) {
        if !ToolIs(RemoveTool) && !ToolIs(ConnectionTool) {
          icon := new Icon(activeIcon.elType, tx - PlaceOffset - x, ty - PlaceOffset - y, w, h, d0, d1, d2);
          nodes := nodes + {icon};
          t := Consumed;
        }
      }
    }

    /**
     * _connect_el: when no edge joins the two pending icons yet, a new
     * connection from the centre of the first to the centre of the second
     * goes on the map and on a new edge between them; then the active tool
     * is released, which (when it was pressed) clears the active tool and
     * the pending pair. c is the new connection, or null.
     */
    method ConnectEl() returns (c: Connection?)
      requires |connectable| == 2 && activeIcon != null
      modifies this`nodes, this`adj, this`conns, this`activeIcon, this`connectable, activeIcon`state
      ensures var a, b := old(connectable)[0], old(connectable)[1];
              && (c == null <==> Graph.HasEdge(old(adj), a, b))
              && (c == null ==> nodes == old(nodes) && adj == old(adj) && conns == old(conns))
              && (c != null ==> && fresh(c) && nodes == old(nodes) + {a, b}
                                && adj == Graph.AddEdge(old(adj), a, b, c) && conns == old(conns) + {c}
                                && c.points == CentreToCentre(a.Bounds(), b.Bounds())
                                && c.box == Geometry.BoundingBox(c.points, 0.0))
      ensures old(activeIcon).state == Normal
      ensures old(activeIcon.state) == Down ==> activeIcon == null && connectable == []
      ensures old(activeIcon.state) == Normal ==> activeIcon == old(activeIcon) && connectable == old(connectable)
      ensures old(activeIcon.state) == Down ==> PendingOk()
    {
      var a, b := connectable[0], connectable[1];
      c := null;
      if !Graph.HasEdge(adj, a, b) {
        c := new Connection(CentreToCentre(a.Bounds(), b.Bounds()));
        conns := conns + {c};
        nodes := nodes + {a, b};
        adj := Graph.AddEdge(adj, a, b, c);
      }
      activeIcon.SetState(this, Normal);
    }
  }

  /** A connection widget: its line and its box (pos and size). */
  class Connection {
    var points: Geometry.Line
    var box: Geometry.Box

    /** A new connection boxes its line exactly. */
    constructor (coord: Geometry.Line)
      ensures points == coord && box == Geometry.BoundingBox(coord, 0.0)
    {
      points := coord;
      box := Geometry.BoundingBox(coord, 0.0);
    }

    /** _update: redraws the line from the centre of a to the centre of b. */
    method Update(a: Icon, b: Icon)
      modifies this`points, this`box
      ensures Drawn(this, a, b)
    {
      points := CentreToCentre(a.Bounds(), b.Bounds());
      box := Geometry.BoundingBox(points, 0.0);
    }
  }

  /** The edges of icon n, from n to each neighbour (edges(n)). */
  function EdgesOf(adj: map<(Icon, Icon), Connection>, n: Icon): set<(Icon, Icon)>
  {
    set e | e in adj && e.0 == n
  }

  /** The far ends of the edges of n. */
  ghost function Far(adj: map<(Icon, Icon), Connection>, n: Icon): set<Icon>
  {
    set e | e in adj && e.0 == n :: e.1
  }

  /** No other edge of es carries the connection on edge e. */
  ghost predicate Alone(adj: map<(Icon, Icon), Connection>, es: set<(Icon, Icon)>, e: (Icon, Icon))
    requires es <= adj.Keys && e in es
  {
    forall f | f in es && adj[f] == adj[e] :: f == e
  }

  /**
   * The line-update loop of on_pos: the connection on each edge of es is
   * redrawn along that edge, in some order. A connection on only one edge
   * of es ends up drawn along it; the other connections are not touched.
   */
  method RedrawEach(adj: map<(Icon, Icon), Connection>, es: set<(Icon, Icon)>)
    requires es <= adj.Keys
    modifies set e | e in es :: adj[e]
    ensures forall c | c in adj.Values && c !in (set e | e in es :: adj[e]) :: c.points == old(c.points) && c.box == old(c.box)
    ensures forall e | e in es && Alone(adj, es, e) :: Drawn(adj[e], e.0, e.1)
  {
    var todo := es;
    while todo != {}
      invariant todo <= es
      invariant forall e | e in es - todo && Alone(adj, es, e) :: Drawn(adj[e], e.0, e.1)
      decreases |todo|
    {
      var e :| e in todo;
      adj[e].Update(e.0, e.1);
      todo := todo - {e};
    }
  }

  /** A draggable element icon on the map. */
  class Icon {
    var x: real
    var y: real
    var width: real
    var height: real
    const elType: string
    const id: string

    /** A new element of type t at (px, py), with an identifier from three draws. */
    constructor (t: string, px: real, py: real, w: real, h: real, d0: nat, d1: nat, d2: nat)
      requires d0 < 9 && d1 < 9 && d2 < 9
      ensures x == px && y == py && width == w && height == h
      ensures elType == t && id == ElementId.IconId(d0, d1, d2)
    {
      x, y, width, height := px, py, w, h;
      elType := t;
      id := ElementId.IconId(d0, d1, d2);
    }

    /** The rectangle the icon takes on the map. */
    function Bounds(): Geometry.Box
      reads this
    {
      Geometry.Box(x, y, width, height)
    }

    /**
     * The touch handler of an icon. A touch on the icon with the REMOVE
     * tool takes the connection on each of the icon's edges off the map and
     * then removes the node with its edges (RemoveKeeps). With the
     * CONNECTION tool the icon joins the pending pair unless it is already
     * in it, and a complete pair is joined by ConnectEl (ConnectKeeps). In
     * both cases the touch is consumed; otherwise nothing changes and the
     * touch goes on to the drag behaviour. c is the connection made, or
     * null.
     */
    method OnTouchDown(host: TopologyMap, tx: real, ty: real) returns (t: Touch, c: Connection?)
      requires this in host.nodes
      modifies host`nodes, host`adj, host`conns, host`activeIcon, host`connectable, if host.activeIcon != null then {host.activeIcon} else {}
      ensures var hit := Geometry.CollidePoint(Bounds(), tx, ty);
              t == Consumed <==> hit && (old(host.ToolIs(RemoveTool)) || old(host.ToolIs(ConnectionTool)))
      ensures Geometry.CollidePoint(Bounds(), tx, ty) && old(host.ToolIs(RemoveTool)) ==>
                && c == null
                && host.adj == Graph.RemoveNode(old(host.adj), this)
                && host.nodes == old(host.nodes) - {this}
                && host.conns == old(host.conns) - Graph.IncidentTags(old(host.adj), this)
                && host.activeIcon == old(host.activeIcon) && host.connectable == old(host.connectable)
      ensures Geometry.CollidePoint(Bounds(), tx, ty) && old(host.ToolIs(ConnectionTool)) ==>
                var pair := Pick(old(host.connectable), this);
                && (|pair| != 2 ==> && c == null && host.connectable == pair
                                    && host.adj == old(host.adj) && host.nodes == old(host.nodes) && host.conns == old(host.conns)
                                    && host.activeIcon == old(host.activeIcon))
                && (|pair| == 2 ==> && (c == null <==> Graph.HasEdge(old(host.adj), pair[0], pair[1]))
                                    && (c == null ==> host.adj == old(host.adj) && host.nodes == old(host.nodes) && host.conns == old(host.conns))
                                    && (c != null ==> && fresh(c) && host.nodes == old(host.nodes) + {pair[0], pair[1]}
                                                      && host.adj == Graph.AddEdge(old(host.adj), pair[0], pair[1], c)
                                                      && host.conns == old(host.conns) + {c}
                                                      && c.points == CentreToCentre(pair[0].Bounds(), pair[1].Bounds()))
                                    && old(host.activeIcon).state == Normal
                                    && (old(host.activeIcon.state) == Down ==> host.activeIcon == null && host.connectable == [])
                                    && (old(host.activeIcon.state) == Normal ==> host.activeIcon == old(host.activeIcon) && host.connectable == pair))
                && (old(host.PendingOk()) && |pair| == 2 ==> pair[0] == old(host.connectable)[0] && pair[1] == this && pair[0] != pair[1])
      ensures old(host.PendingOk()) ==> host.PendingOk()
      ensures !(Geometry.CollidePoint(Bounds(), tx, ty) && (old(host.ToolIs(RemoveTool)) || old(host.ToolIs(ConnectionTool)))) ==>
                && c == null
                && host.adj == old(host.adj) && host.nodes == old(host.nodes) && host.conns == old(host.conns)
                && host.activeIcon == old(host.activeIcon) && host.connectable == old(host.connectable)
    {
      t, c := PassedOn, null;
      if !Geometry.CollidePoint(Bounds(), tx, ty) {
        return;
      }
      if host.ToolIs(RemoveTool) {
        host.conns := host.conns - Graph.IncidentTags(host.adj, this);
        host.adj := Graph.RemoveNode(host.adj, this);
        host.nodes := host.nodes - {this};
        t := Consumed;
      } else if host.ToolIs(ConnectionTool) {
        host.connectable := Pick(host.connectable, this);
        if |host.connectable| == 2 {
          c := host.ConnectEl();
        }
        t := Consumed;
      }
    }

    /**
     * The line-update loop of on_pos: each connection on an edge of the
     * icon is redrawn from this icon's centre to the neighbour's. On a
     * simple graph each of those connections sits on one edge of the icon,
     * so all of them end up drawn from here.
     */
    method UpdateLines(host: TopologyMap)
      requires this in host.nodes
      modifies host.adj.Values
      ensures forall c | c in host.adj.Values && c !in Graph.IncidentTags(host.adj, this) ::
                c.points == old(c.points) && c.box == old(c.box)
      ensures Graph.Simple(host.adj) ==> forall e | e in EdgesOf(host.adj, this) :: Drawn(host.adj[e], this, e.1)
    {
      var adj := host.adj;
      var es := EdgesOf(adj, this);
      assert (set e | e in es :: adj[e]) == Graph.IncidentTags(adj, this);
      RedrawEach(adj, es);
      if Graph.Simple(adj) {
        forall e | e in es ensures Alone(adj, es, e) {
          forall f | f in es && adj[f] == adj[e] ensures f == e {
            assert f == e || f == (e.1, e.0);
          }
        }
      }
    }

    /** How many of the icon's two axes stick out of the map. */
    ghost function OutOfBounds(host: TopologyMap): nat
      reads this, host
    {
      (if Geometry.ClampAxisFixed(x, width, host.x, host.width, host.x) == x then 0 else 1)
      + (if Geometry.ClampAxisFixed(y, height, host.y, host.height, host.y) == y then 0 else 1)
    }

    /**
     * on_pos: on the map, the connections of the icon are redrawn and the
     * icon is then clamped into the map on x and on y independently. Each
     * clamping assignment fires on_pos again, which redraws the lines at
     * the new position. Off the map nothing happens. The clamp is the
     * corrected one (Geometry.ClampAxisFixed): with the source's clamp an
     * icon larger than the map is moved by every clamping and on_pos never
     * returns (Geometry.ClampNeverSettles).
     */
    method OnPos(host: TopologyMap?)
      requires host != null ==> this in host.nodes
      modifies this`x, this`y, if host != null then host.adj.Values else {}
      ensures host == null ==> x == old(x) && y == old(y)
      ensures host != null ==>
                && x == Geometry.ClampAxisFixed(old(x), width, host.x, host.width, host.x)
                && y == Geometry.ClampAxisFixed(old(y), height, host.y, host.height, host.y)
      ensures host != null && width <= host.width ==> host.x <= x + host.x && x + width + host.x <= host.x + host.width
      ensures host != null && height <= host.height ==> host.y <= y + host.y && y + height + host.y <= host.y + host.height
      ensures host != null && width > host.width ==> x + host.x == host.x
      ensures host != null && height > host.height ==> y + host.y == host.y
      ensures host != null ==>
                forall c | c in host.adj.Values && c !in Graph.IncidentTags(host.adj, this) ::
                  c.points == old(c.points) && c.box == old(c.box)
      ensures host != null && Graph.Simple(host.adj) ==>
                forall e | e in EdgesOf(host.adj, this) :: Drawn(host.adj[e], this, e.1)
      decreases if host != null then OutOfBounds(host) else 0
    {
      if host == null {
        return;
      }
      UpdateLines(host);
      var nx := Geometry.ClampAxisFixed(x, width, host.x, host.width, host.x);
      Geometry.ClampAxisFixedSettles(x, width, host.x, host.width, host.x);
      if nx != x {
        x := nx;
        OnPos(host);
      }
      var ny := Geometry.ClampAxisFixed(y, height, host.y, host.height, host.y);
      Geometry.ClampAxisFixedSettles(y, height, host.y, host.height, host.y);
      if ny != y {
        y := ny;
        OnPos(host);
      }
    }
  }

  /**
   * Joining two distinct icons that have no edge yet, with a connection not
   * on the map, keeps the bookkeeping, and the map gains exactly that
   * connection.
   */
  lemma ConnectKeeps(nodes: set<Icon>, adj: map<(Icon, Icon), Connection>, conns: set<Connection>,
                     a: Icon, b: Icon, c: Connection)
    requires Kept(nodes, adj, conns) && a != b && !Graph.HasEdge(adj, a, b) && c !in conns
    ensures Kept(nodes + {a, b}, Graph.AddEdge(adj, a, b, c), conns + {c})
  {
    Graph.AddEdgeSimple(adj, a, b, c);
  }

  /**
   * A touch with the connection tool that completes the pending pair of a
   * map in its between-events state joins two distinct icons, so the
   * bookkeeping is kept, and the released tool leaves the map in the
   * between-events state again with nothing pending.
   */
  lemma {:induction false} ConnectionTouchKeeps(nodes: set<Icon>, adj: map<(Icon, Icon), Connection>, conns: set<Connection>,
                                                pending: seq<Icon>, n: Icon, c: Connection)
    requires Kept(nodes, adj, conns) && Pending(true, true, pending)
    requires |Pick(pending, n)| == 2 && !Graph.HasEdge(adj, Pick(pending, n)[0], Pick(pending, n)[1]) && c !in conns
    ensures var pair := Pick(pending, n);
            && pair == [pending[0], n]
            && Kept(nodes + {pair[0], pair[1]}, Graph.AddEdge(adj, pair[0], pair[1], c), conns + {c})
            && Pending(false, false, [])
  {
    var pair := Pick(pending, n);
    assert pair[..|pending|] == pending;
    ConnectKeeps(nodes, adj, conns, pair[0], pair[1], c);
  }

  /**
   * Removing icon n with the connections on its edges keeps the
   * bookkeeping, and n is left with no neighbours.
   */
  lemma RemoveKeeps(nodes: set<Icon>, adj: map<(Icon, Icon), Connection>, conns: set<Connection>, n: Icon)
    requires Kept(nodes, adj, conns)
    ensures Kept(nodes - {n}, Graph.RemoveNode(adj, n), conns - Graph.IncidentTags(adj, n))
    ensures Graph.Neighbours(Graph.RemoveNode(adj, n), n) == {}
  {
    Graph.RemoveNodeSimple(adj, n);
  }
}
