# Topology editor kernel of an optical-network GUI, in Dafny

This project models the topology-editing core of a Kivy editor for optical
networks.

- **Elements.** Element icons (ROADM, EDFA amplifier, transceiver, fused
  element, fiber) are dropped on a topology map and dragged around.
- **Connections.** Icons are joined by connection widgets.
- **Graph.** Every edit is mirrored in a networkx graph.

The editor comes in two versions, both modelled here:

- **`app/elements.py`, the later directed version.** Modelled by modules
  `Readiness`, `ElementId`, `Geometry`, `Digraph` and `Elements`.
  - The topology is a DiGraph. Its edges are tagged with a connection
    widget that is 'bidir' (both directions present) or 'unidir'.
  - The direction of a connection can be flipped and its source swapped.
  - Each element decides from its parameters, the simulation mode and the
    amplifier catalog whether it is ready.
  - Connection lines are pulled in to the outlines of the square icons.
- **`app/main.py`, the earlier undirected version.** Modelled by modules
  `Graph` and `MainApp`.
  - The topology is a Graph.
  - Sidebar tools place elements or join two picked elements.
  - Lines run centre to centre.

Module `Common` holds the shared pieces:
- the touch answer;
- the tool names;
- the "pick" step of the connection tool (append unless already present).

Conventions of the model:

- **Graphs are maps.** A directed graph is a map from ordered node pairs to
  the connection on that edge. An undirected graph stores each edge both
  ways, as networkx's adjacency does.
- **Property events.** A Kivy property assignment that fires its
  `on_<property>` handler is the assignment followed by a call of the
  handler. The call is made only when the value changes, and it happens
  before the assignment's caller goes on.
  - Setting `ready` runs the readiness check again.
  - Setting a toggle's `state` runs `on_state`.
  - Setting `conn_dir` runs `on_conn_dir`.
  - Clamping `x` or `y` runs `on_pos` again, so `OnPos` is recursive.
- **State and bookkeeping.** Each handler is a method whose contract states
  the exact new state. The consistency of the map's bookkeeping is stated
  separately, as lemmas over values:
  - `Elements.Bookkept` with `Digraph.Consistent` in the directed version;
  - `MainApp.Kept` with `Graph.Simple` in the undirected version.

  The lemmas show that each new state keeps it.
- **Numbers.** Coordinates are `real`; the source uses floats (see Left out below).
- **Parameters.** The random identifier draws, the icon size, the
  equipment catalog and the simulation mode are parameters.

## Model

| member | source | states |
|---|---|---|
| Readiness.Defaults | app/elements.py:137-239 | each element class starts from a parameter list of its own class (the declared defaults: ROADM loss 17, fused loss 0.5, fiber loss coefficient 0.2, selectors on '-- select --') |
| Readiness.EnsureReady | app/elements.py:144-249 | ROADM and fused are always ready; a transceiver iff both selectors are chosen; a fiber iff length > 0; an amplifier with a chosen type is ready in Automatic mode, in Advanced/Mixed iff gain_min <= gain_target <= gain_flatmax of its catalog entry (an unknown type is the KeyError outcome), and not ready otherwise |
| Readiness.ModeIndependent | app/elements.py:198-202 | outside the amplifier, readiness depends neither on the mode nor on the catalog |
| Readiness.AmplifierModeSwitch | app/elements.py:167-178 | an amplifier with a chosen, catalogued type is ready in Automatic mode, gets the same answer in Advanced and Mixed, and there is ready exactly when its gain target is in range |
| Readiness.InitialReady | app/elements.py:41-43 | a new element starts ready iff the mode is Automatic and it is a ROADM or a fused element (ready = True fires the check on the defaults) |
| ElementId.Digit | app/elements.py:38 | a draw from randrange(0, 9) prints as one of '0'..'8', the digit of its value |
| ElementId.IconId | app/elements.py:38 | the identifier is 'ID' followed by the three drawn digits in order |
| ElementId.IconIdInjective | app/main.py:363 | two identifiers are equal exactly when the three draws are equal |
| Elements.Icon.constructor | app/elements.py:31-43 | a new icon has its position and size, the class defaults, the identifier of its draws and the initial readiness |
| Elements.Icon.EnsureReady | app/elements.py:124-128 | ready becomes the readiness of the current parameters, or stays as it was when the amplifier's catalog lookup fails |
| Geometry.CollidePoint | app/elements.py:46 | the hit test: the touch is at most half a side from the widget's centre on each axis, border included |
| Geometry.BoundingBox | app/elements.py:354-361 | the box has its corner at the smaller coordinates and contains both endpoints; each side is the endpoints' distance when that is at least the minimum, and exactly the minimum otherwise (4 here, 0 in the undirected version) |
| Geometry.ClampAxis | app/elements.py:110-122 | on one axis: an icon that fits ends inside the parent; one already inside does not move; one out on the low side is put flush with the low edge, one out on the high side flush with the high edge |
| Geometry.ClampAxisIdempotent | app/elements.py:110-122 | clamping an icon that fits a second time leaves it where the first clamping put it |
| Geometry.ClampNeverSettles | app/elements.py:113-122 | as written, an icon larger than the map is moved by every clamping (60 wide at 0 on a map 50 wide: to -10, then back to 0) |
| Geometry.ClampAxisFixed | app/elements.py:113-122 | the corrected clamp: the source's clamp for an icon that fits, flush with the low edge for one that does not |
| Geometry.ClampAxisFixedSettles | app/elements.py:113-122 | the corrected clamp leaves its own result where it is, on every input, so on_pos fires at most once more per axis |
| Geometry.GetCoord | app/elements.py:365-439 | get_coord, taken from the centres with half the first icon's side, equals one reference form for all inputs: each endpoint moves from its centre towards the other centre by half a side in Chebyshev distance, or the line joins the centres when they are closer than that |
| Geometry.CentreLine | app/elements.py:372-401 | the case split on vertical, horizontal and oblique lines agrees with the reference form for all centres |
| Geometry.VerticalLine | app/elements.py:373-385 | centres one above the other: the reference form (only y moves, by half a side, unless the centres are closer than that) |
| Geometry.HorizontalLine | app/elements.py:387-399 | centres side by side: the reference form (only x moves, by half a side, unless the centres are closer than that) |
| Geometry.SlopedLine | app/elements.py:401-439 | an oblique line with slope a through both centres: the reference form, whichever of the shallow and steep cases the slope picks |
| Geometry.ShallowLine | app/elements.py:407-422 | slope within ±1: the reference form, x moving by half a side and y following the line |
| Geometry.SteepLine | app/elements.py:424-439 | slope beyond ±1: the reference form, y moving by half a side and x following the line |
| Geometry.GetCoordTouchesOutlines | app/elements.py:365-439 | when the line is pulled in, each endpoint lies on the outline of its icon's square and on the line through both centres |
| Geometry.GetCoordHorizontal | app/elements.py:388-399 | for icons at the same height: B at least half a side to the right gives (A.cx+d, A.cy, B.cx-d, B.cy), to the left the mirror image, and the centres when closer than d |
| Digraph.Flipped | app/elements.py:339-340 | _change_dir assigns the other direction |
| Digraph.FlippedInvolution | app/elements.py:339-340 | changing the direction twice restores it |
| Digraph.AddReverse | app/elements.py:327 | add_edge(v, u, obj=c) for the edge (u, v): (v, u) is tagged c, any earlier tag of it replaced, and every other edge is kept with its tag |
| Digraph.RemoveEdge | app/elements.py:336 | remove_edge: the edge is gone and every other edge is kept with its tag |
| Digraph.RemoveTagged | app/elements.py:301-307 | removing by connection deletes exactly the edges tagged with it and keeps every other edge with its tag |
| Digraph.RemoveNode | app/elements.py:70 | remove_node deletes exactly the edges into or out of the node and keeps the others with their tags |
| Digraph.TaggedOfEdge | app/elements.py:319-336 | under the invariant, a bidirectional connection tags exactly its edge and the reverse (2 edges), a unidirectional one exactly its edge (1 edge) |
| Digraph.TaggedCount | app/elements.py:326-335 | under the invariant, every connection in the graph has a direction and tags 2 edges if bidirectional, 1 if unidirectional |
| Digraph.AddReverseConsistent | app/elements.py:320-327 | adding the reverse of a unidirectional connection's edge keeps the invariant with the connection now bidirectional |
| Digraph.RemoveEdgeConsistent | app/elements.py:329-336 | removing either edge of a bidirectional connection keeps the invariant with the connection now unidirectional |
| Digraph.SwapSource | app/elements.py:343-351 | _change_dir_src on the edge (u, v) tagged c: (v, u) is tagged c, (u, v) is gone, and every other edge is kept with its tag |
| Digraph.SwapSourceConsistent | app/elements.py:343-351 | swapping the source of a unidirectional connection keeps the invariant, the connection then tags only the reversed edge, and the same connections are in use |
| Digraph.SwapSourceTwice | app/elements.py:343-351 | swapping the source twice gives back the original edges |
| Digraph.UnidirRoundTrip | app/elements.py:319-340 | unidir to bidir and back gives the original edges or the ones with the source swapped, whichever edge on_conn_dir removes |
| Digraph.BidirRoundTrip | app/elements.py:319-340 | bidir to unidir and back restores the original edges exactly |
| Digraph.RemoveTaggedConsistent | app/elements.py:301-309 | removing a connection's edges keeps the invariant, leaves no edge tagged with it, and the graph's connections lose exactly that one |
| Digraph.RemoveNodeConsistent | app/elements.py:69-70 | removing a node keeps the invariant, and the connections lost are exactly those on its edges |
| Digraph.IncidentTagsDistinct | app/elements.py:100-109 | under the invariant, the edges of a node share a connection only as an edge and its reverse |
| Digraph.FlipConsistent | app/elements.py:319-340 | the edge change of on_conn_dir keeps the invariant with the connection's direction flipped, uses the same connections and joins no new node pair |
| Elements.Connection.constructor | app/elements.py:266-276 | a new connection is 'bidir', carries its line and boxes it with sides at least 4 |
| Elements.Connection.Update | app/elements.py:354-361 | after _update the line is get_coord of the two icons and the box is the line's box with minimum side 4 |
| Elements.Connection.OnConnDir | app/elements.py:319-336 | to 'bidir' the single tagged edge gets its reverse; to 'unidir' one of the two tagged edges is removed; ok is false exactly when the count is not the one asserted, and then nothing changes |
| Elements.Connection.ChangeDir | app/elements.py:339-340 | the direction flips and on_conn_dir's edge change follows with the new direction |
| Elements.Connection.ChangeDirSrc | app/elements.py:343-351 | a unidirectional connection's single edge (u, v) is replaced by (v, u) and every other edge is kept; a bidirectional one changes nothing; ok is false exactly when a unidirectional connection does not tag one edge |
| Elements.Connection.OnTouchDown | app/elements.py:278-312 | the touch is consumed iff it hits the box and the line; under REMOVE exactly the edges tagged with the connection go, it leaves the map, and the removal is logged; otherwise nothing changes |
| Elements.RemoveEdgesOf | app/elements.py:301-307 | the loop over the tagged edges removes exactly those edges |
| Elements.Icon.OnTouchDown | app/elements.py:45-89 | on a hit: under REMOVE the cascade runs; under CONNECTION the icon joins the pending pair unless already there, and connect says the pair is complete; otherwise the icon becomes the selected element; consumed exactly under REMOVE or CONNECTION |
| Elements.Icon.Remove | app/elements.py:50-73 | the connections on the icon's edges leave the map, the node goes with all its edges, and the log lists one connection per incident edge |
| Elements.TakeOffConnections | app/elements.py:52-60 | the loop takes off exactly the connections on the incident edges, one log entry per edge |
| Elements.CascadeRepeatsBidir | app/elements.py:55-60 | as written, a bidirectional connection of the removed icon is taken off twice and a unidirectional one once |
| Elements.RedrawEach | app/elements.py:100-109 | each connection on only one of the visited edges ends up drawn along it; no other connection and no direction changes |
| Elements.Icon.UpdateLines | app/elements.py:100-109 | with the invariant's separation of tags, every outgoing connection is drawn from this icon and every incoming one without a reverse towards it; connections of other icons and all directions are untouched |
| Elements.Icon.OnPos | app/elements.py:98-122 | on the map, an icon that fits ends clamped on each axis (left and right edges between parent.x and parent.x + parent.width after the offset, likewise for y), one too large ends flush with the low edge, and its lines are drawn at the final position; off the map nothing moves |
| Elements.DirChangesNeverFail | app/elements.py:326-349 | on a consistent map the assertions of on_conn_dir, _change_dir and _change_dir_src always hold |
| Elements.FlipKeeps | app/elements.py:319-340 | a direction change keeps the map's bookkeeping with the flipped direction |
| Elements.SwapKeeps | app/elements.py:343-351 | a source swap keeps the map's bookkeeping |
| Elements.RemoveTaggedKeeps | app/elements.py:301-309 | removing a connection keeps the map's bookkeeping |
| Elements.RemoveNodeKeeps | app/elements.py:50-71 | removing an icon with its connections keeps the map's bookkeeping |
| Common.Pick | app/elements.py:76-81 | the pending icons keep their places and the touched icon is appended at the end unless it is already there; a list without repeats stays without repeats, so a completed pair never joins an icon to itself |
| Graph.AddEdge | app/main.py:344 | add_edge stores the edge both ways with the new connection and keeps every other edge |
| Graph.RemoveNode | app/main.py:375 | remove_node deletes exactly the edges touching the node |
| Graph.HasEdge | app/main.py:334 | has_edge(a, b) and has_edge(b, a) agree in the undirected graph |
| Graph.AddEdgeSimple | app/main.py:332-346 | joining two distinct unjoined icons with a new connection keeps the graph simple and adds exactly that connection |
| Graph.AddEdgeOverExisting | app/main.py:334 | without the has_edge test the old connection would be dropped from the graph while its widget stays |
| Graph.RemoveNodeSimple | app/main.py:370-378 | removing a node keeps the graph simple, leaves it no neighbours and drops exactly its connections |
| MainApp.CentreToCentre | app/main.py:443-447 | each endpoint is the centre of its icon, equally far from both edges on each axis |
| MainApp.SidebarIcon.OnState | app/main.py:298-306 | pressed: the tool becomes the active one; released: no active tool and an empty pending list; the between-events state of the pending pair (at most one icon waiting, none without an active tool, an active tool is pressed) is kept |
| MainApp.SidebarIcon.SetState | app/main.py:345-346 | a state assignment fires on_state only when the state changes, and keeps the between-events state of the pending pair |
| MainApp.TopologyMap.constructor | app/main.py:312-316 | a new map has an empty graph, no connections, no active tool and no pending icons |
| MainApp.TopologyMap.OnTouchDown | app/main.py:318-329 | a new icon is placed at the touch less 25, in map coordinates, exactly when a tool is active, the touch hits the map and the tool is neither REMOVE nor CONNECTION; otherwise the topology is unchanged |
| MainApp.TopologyMap.ConnectEl | app/main.py:332-346 | exactly one new edge, tagged with a new centre-to-centre connection, iff the two pending icons are not yet joined; in both cases the tool is released, which clears the active tool and the pending list and leaves the between-events state |
| MainApp.Connection.constructor | app/main.py:429-439 | a new connection carries its line in an exact box |
| MainApp.Connection.Update | app/main.py:442-453 | _update draws the line between the two centres, boxed at the smaller coordinates with the distances as size |
| MainApp.RedrawEach | app/main.py:402-404 | each connection on only one visited edge ends drawn along it; the others are untouched |
| MainApp.Icon.constructor | app/main.py:357-363 | a new icon has its type, position, size and the identifier of its draws |
| MainApp.Icon.OnTouchDown | app/main.py:365-390 | on a hit: under REMOVE the icon's connections leave the map and the node goes with its edges; under CONNECTION the icon joins the pending pair unless there, and a complete pair (the waiting icon, then this one, two different icons) runs _connect_el; otherwise nothing changes; the between-events state of the pending pair is kept |
| MainApp.Icon.UpdateLines | app/main.py:402-404 | on a simple graph every connection of the icon is drawn from its centre to the neighbour's; the others are untouched |
| MainApp.Icon.OnPos | app/main.py:399-417 | on the map, an icon that fits is clamped into it on each axis independently, one too large ends flush with the low edge, and its lines are drawn at the final position |
| MainApp.ConnectKeeps | app/main.py:332-346 | joining two distinct unjoined icons keeps the map's bookkeeping |
| MainApp.ConnectionTouchKeeps | app/main.py:381-390 | from the between-events state, a touch that completes the pair joins the waiting icon to the touched one, two different icons, so the bookkeeping is kept, and nothing is pending afterwards |
| MainApp.RemoveKeeps | app/main.py:370-378 | removing an icon with its connections keeps the map's bookkeeping and leaves it no neighbours |

## Left out

- Rendering is not modelled: images, colours, the `source` swaps and `on_touch_up`.
- Window plumbing is not modelled. This covers `add_widget` and
  `remove_widget`, the parameter tabs and form refreshes of the running
  application, and the latitude and longitude fields. Widgets taken off the
  directed map are recorded in the ghost log `removedConnections`.
- `_very_close` is a boolean parameter of `Elements.Connection.OnTouchDown`.
  Its test uses floating-point square roots and divides by zero at the line's
  first point.
- The random identifier draws are parameters of the icon constructors.
- The icon size of a newly placed element is a parameter. It comes from the
  widget style.
- The simulation mode text and the amplifier catalog are parameters, because
  they are read from the running application.
- The directed map's `_connect_el` is not in app/elements.py.
  - `Elements.Icon.OnTouchDown` returns `connect` where the source calls it.
  - The directed `TopologyMap` holds only the state these handlers touch.
- The order in which networkx lists edges is not modelled.
  - `Elements.Connection.OnConnDir` removes one of the two tagged edges, for
    whichever one `edges[1]` would be.
  - The loops visit their edges in any order. Where only the last redraw of
    a connection counts, the contracts say which redraw wins only when that
    is order-free.
- Elements.Icon.UpdateLines: the drawing of a bidirectional connection is
  stated only where the result does not depend on the order. The outgoing
  drawing is the last one, because the in-edges are visited first. It is
  stated under the separation of tags that the bookkeeping guarantees
  (`Digraph.IncidentTagsDistinct`).
- Elements.Icon.OnPos, MainApp.Icon.OnPos: these use the corrected clamp
  `Geometry.ClampAxisFixed` (see Findings below). For an icon that fits it is
  the source's clamp; for one larger than the map the source never returns.
- Floating point is not modelled: coordinates are exact reals.
  - `Geometry.GetCoordTouchesOutlines` holds exactly only over the reals;
    with floats the endpoints lie on the outlines up to rounding.
  - With floats, a slope computed near ±1 can round to the other side of the
    test at app/elements.py:407 and 424 and pick the other case.
- Elements.Connection.ChangeDir, Elements.Connection.ChangeDirSrc,
  Elements.Icon.OnTouchDown and the MainApp handlers: these state the new
  state only. The bookkeeping they keep is proved by the `...Keeps` lemmas
  on values instead of as method postconditions.
- A failed assertion in the source is an `ok == false` result that leaves the
  edges untouched.
- `get_coord`'s `isinstance` test (it returns None for non-icons) is left
  out, since it is always called with two icons.
- Dispatch to children and the drag behaviour are returned as `PassedOn`.
  This is the base class's `on_touch_down`, including the relative layout's
  coordinate change for children.
- The mutual release of toggle buttons in one sidebar group is not modelled.
  It belongs to Kivy's toggle behaviour.

## Findings

| source | as written | input that shows it | evidently intended | confidence | as-written member | corrected member |
|---|---|---|---|---|---|---|
| app/elements.py:113-122 and app/main.py:408-417 | the drag clamp moves an icon larger than the map on every call, and each move fires on_pos again | an icon 60 wide at x = 0 on a map 50 wide at 0: x goes to -10, then back to 0, for ever, until Python's recursion limit | an icon that cannot fit stays flush with the map's low edge | not executed; only reachable with an icon larger than the map | Geometry.ClampNeverSettles | Geometry.ClampAxisFixed |
