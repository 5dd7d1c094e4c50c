/**
 * Canvas geometry of the topology editor: where a connection line touches
 * two square icons, the bounding box of a connection widget, the clamping
 * that keeps a dragged icon on the map, and the widget hit test.
 * Every function here is pure and works on real coordinates.
 */
module Geometry {

  /** The four numbers of a connection line: from (x1, y1) to (x2, y2). */
  datatype Line = Line(x1: real, y1: real, x2: real, y2: real)

  /** A widget rectangle: its lower-left corner and its size. */
  datatype Box = Box(x: real, y: real, width: real, height: real)

  function Abs(r: real): real { if r < 0.0 then -r else r }

  function Min(a: real, b: real): real { if a <= b then a else b }

  function Max(a: real, b: real): real { if a >= b then a else b }

  /** The widget hit test (a touch on the border counts as inside). */
  predicate CollidePoint(b: Box, px: real, py: real)
    // equivalently: on each axis the point is at most half a side from the centre
    ensures CollidePoint(b, px, py) <==>
              Abs(px - (b.x + b.width / 2.0)) <= b.width / 2.0 && Abs(py - (b.y + b.height / 2.0)) <= b.height / 2.0
  {
    b.x <= px <= b.x + b.width && b.y <= py <= b.y + b.height
  }

  /**
   * The box a connection widget takes from its line: corner at the smaller
   * coordinates, each side the distance between the endpoints but never
   * less than minSide (4 in the directed version, 0 in the earlier one).
   */
  function BoundingBox(l: Line, minSide: real): (b: Box)
    ensures b.x <= l.x1 && b.x <= l.x2 && b.y <= l.y1 && b.y <= l.y2
    ensures l.x1 <= b.x + b.width && l.x2 <= b.x + b.width
    ensures l.y1 <= b.y + b.height && l.y2 <= b.y + b.height
    ensures (b.x == l.x1 || b.x == l.x2) && (b.y == l.y1 || b.y == l.y2)
    ensures b.width >= minSide && b.height >= minSide
    ensures b.width >= 0.0 && b.height >= 0.0
    ensures Abs(l.x1 - l.x2) >= minSide ==> b.x + b.width == Max(l.x1, l.x2)
    ensures Abs(l.y1 - l.y2) >= minSide ==> b.y + b.height == Max(l.y1, l.y2)
    ensures Abs(l.x1 - l.x2) < minSide ==> b.width == minSide
    ensures Abs(l.y1 - l.y2) < minSide ==> b.height == minSide
  {
    Box(Min(l.x1, l.x2), Min(l.y1, l.y2),
        Max(Abs(l.x1 - l.x2), minSide), Max(Abs(l.y1 - l.y2), minSide))
  }

  /**
   * One axis of the drag clamp: pos and extent are the icon's coordinate
   * and size on that axis, parentPos and parentExtent the map's, and offset
   * the map position that is added to the icon's coordinate before it is
   * compared with the map's edges.
   */
  function ClampAxis(pos: real, extent: real, parentPos: real, parentExtent: real, offset: real): (r: real)
    // an icon that fits ends up inside the map on this axis
    ensures extent <= parentExtent ==>
              parentPos <= r + offset && r + extent + offset <= parentPos + parentExtent
    // an icon already inside is left where it is
    ensures parentPos <= pos + offset && pos + extent + offset <= parentPos + parentExtent ==> r == pos
    // an icon sticking out on the low side is put flush with the low edge
    ensures pos + offset < parentPos ==> r + offset == parentPos
    // otherwise, an icon sticking out on the high side is put flush with the high edge
    ensures parentPos <= pos + offset && parentPos + parentExtent < pos + extent + offset ==>
              r + extent + offset == parentPos + parentExtent
  {
    if pos + offset < parentPos then parentPos - offset
    else if pos + extent + offset > parentPos + parentExtent then parentPos + parentExtent - extent - offset
    else pos
  }

  /**
   * The source's clamp never settles for an icon wider than the map: every
   * clamping moves it, so every assignment fires on_pos again. An icon 60
   * wide at 0 on a map 50 wide at 0 goes to -10 and back to 0 for ever.
   */
  lemma ClampNeverSettles(pos: real, extent: real, parentPos: real, parentExtent: real, offset: real)
    requires extent > parentExtent
    ensures ClampAxis(pos, extent, parentPos, parentExtent, offset) != pos
    ensures ClampAxis(0.0, 60.0, 0.0, 50.0, 0.0) == -10.0 && ClampAxis(-10.0, 60.0, 0.0, 50.0, 0.0) == 0.0
  {
  }

  /**
   * The clamp as evidently intended: the same as the source's for an icon
   * that fits, and an icon too large for the map is put flush with its low
   * edge, where it stays.
   */
  function ClampAxisFixed(pos: real, extent: real, parentPos: real, parentExtent: real, offset: real): (r: real)
    ensures extent <= parentExtent ==> r == ClampAxis(pos, extent, parentPos, parentExtent, offset)
    ensures extent > parentExtent ==> r + offset == parentPos
  {
    if extent > parentExtent then parentPos - offset
    else ClampAxis(pos, extent, parentPos, parentExtent, offset)
  }

  /** The corrected clamp settles after one step on every input. */
  lemma ClampAxisFixedSettles(pos: real, extent: real, parentPos: real, parentExtent: real, offset: real)
    ensures var r := ClampAxisFixed(pos, extent, parentPos, parentExtent, offset);
            ClampAxisFixed(r, extent, parentPos, parentExtent, offset) == r
  {
    if extent <= parentExtent {
      ClampAxisIdempotent(pos, extent, parentPos, parentExtent, offset);
    }
  }

  /** Clamping twice is clamping once, for an icon that fits. */
  lemma ClampAxisIdempotent(pos: real, extent: real, parentPos: real, parentExtent: real, offset: real)
    requires extent <= parentExtent
    ensures var r := ClampAxis(pos, extent, parentPos, parentExtent, offset);
            ClampAxis(r, extent, parentPos, parentExtent, offset) == r
  {
  }

  /**
   * The connection line between icons whose lower-left corners are (ax, ay)
   * and (bx, yb). Both centres are taken with the first icon's side, and the
   * endpoints are moved from the centres towards each other by half that
   * side: along y for a vertical or steep line (|slope| > 1), along x for a
   * horizontal or shallow one (|slope| <= 1, slope 1 included). When the
   * centres are closer than half a side on that axis, or the side is not
   * positive, the centres themselves are returned.
   */
  function GetCoord(ax: real, ay: real, bx: real, yb: real, side: real): (r: Line)
    ensures var d := side / 2.0;
            r == PulledIn(ax + d, ay + d, bx + d, yb + d, d)
  {
    var d := side / 2.0;
    CentreLine(ax + d, ay + d, bx + d, yb + d, d)
  }

  /** The case analysis of GetCoord, from the centres (pax, pay), (pbx, pby) and d. */
  function CentreLine(pax: real, pay: real, pbx: real, pby: real, d: real): (r: Line)
    ensures r == PulledIn(pax, pay, pbx, pby, d)
  {
    if pax == pbx then VerticalLine(pax, pay, pbx, pby, d)
    else if pay == pby then HorizontalLine(pax, pay, pbx, pby, d)
    else
      SlopeTimes(pax, pay, pbx, pby);
      SlopedLine(pax, pay, pbx, pby, Slope(pax, pay, pbx, pby), d)
  }

  /** The oblique case, on the line y = a * x + c through both centres. */
  function SlopedLine(pax: real, pay: real, pbx: real, pby: real, a: real, d: real): (r: Line)
    requires pax != pbx && pay != pby && a * (pbx - pax) == pby - pay
    ensures r == PulledIn(pax, pay, pbx, pby, d)
  {
    var c := pay - a * pax;
    if (1.0 >= a > 0.0) || (0.0 > a >= -1.0) then ShallowLine(pax, pay, pbx, pby, a, c, d)
    else if a > 1.0 || a < -1.0 then SteepLine(pax, pay, pbx, pby, a, c, d)
    else
      // a == 0 would need pay == pby, which CentreLine has already handled
      assert false; Line(pax, pay, pbx, pby)
  }

  /** The slope of the line through two centres that differ in x. */
  function Slope(pax: real, pay: real, pbx: real, pby: real): real
    requires pax != pbx
  {
    (pay - pby) / (pax - pbx)
  }

  /** Line parallel to the y axis: only the y coordinates move. */
  function VerticalLine(pax: real, pay: real, pbx: real, pby: real, d: real): (r: Line)
    requires pax == pbx
    ensures r == PulledIn(pax, pay, pbx, pby, d)
  {
    var l :=
      if pay < pay + d <= pby then Line(pax, pay + d, pbx, pby - d)
      else if pay > pay - d >= pby then Line(pax, pay - d, pbx, pby + d)
      else Line(pax, pay, pbx, pby);
    assert l == PulledIn(pax, pay, pbx, pby, d) by {
      var dy := pby - pay;
      var m := Abs(dy);
      assert Chebyshev(pax, pay, pbx, pby) == m;
      if d > 0.0 && m >= d {
        SignedFraction(d, dy);
        assert (d / m) * (pbx - pax) == 0.0;
      }
    }
    l
  }

  /** Line parallel to the x axis: only the x coordinates move. */
  function HorizontalLine(pax: real, pay: real, pbx: real, pby: real, d: real): (r: Line)
    requires pax != pbx && pay == pby
    ensures r == PulledIn(pax, pay, pbx, pby, d)
  {
    var l :=
      if pax < pax + d <= pbx then Line(pax + d, pay, pbx - d, pby)
      else if pbx <= pax - d < pax then Line(pax - d, pay, pbx + d, pby)
      else Line(pax, pay, pbx, pby);
    assert l == PulledIn(pax, pay, pbx, pby, d) by {
      var dx := pbx - pax;
      var m := Abs(dx);
      assert Chebyshev(pax, pay, pbx, pby) == m;
      if d > 0.0 && m >= d {
        SignedFraction(d, dx);
        assert (d / m) * (pby - pay) == 0.0;
      }
    }
    l
  }

  /** Slope a with 0 < |a| <= 1: x moves by d and y follows y = a * x + c. */
  function ShallowLine(pax: real, pay: real, pbx: real, pby: real, a: real, c: real, d: real): (r: Line)
    requires pax != pbx && a * (pbx - pax) == pby - pay && c == pay - a * pax && Abs(a) <= 1.0
    ensures r == PulledIn(pax, pay, pbx, pby, d)
  {
    var l :=
      if pax < pax + d <= pbx then
        Line(pax + d, a * (pax + d) + c, pbx - d, a * (pbx - d) + c)
      else if pbx <= pax - d < pax then
        Line(pax - d, a * (pax - d) + c, pbx + d, a * (pbx + d) + c)
      else Line(pax, pay, pbx, pby);
    assert l == PulledIn(pax, pay, pbx, pby, d) by {
      SlopeBound(a, pbx - pax, pby - pay);
      var m := Abs(pbx - pax);
      assert Chebyshev(pax, pay, pbx, pby) == m;
      if d > 0.0 && m >= d {
        SignedFraction(d, pbx - pax);
        ShallowCase(pax, pay, pbx, pby, a, c, d, d / m);
      }
    }
    l
  }

  /** Slope a with |a| > 1: y moves by d and x follows x = (y - c) / a. */
  function SteepLine(pax: real, pay: real, pbx: real, pby: real, a: real, c: real, d: real): (r: Line)
    requires pax != pbx && a * (pbx - pax) == pby - pay && c == pay - a * pax && Abs(a) > 1.0
    ensures r == PulledIn(pax, pay, pbx, pby, d)
  {
    var l :=
      if pay < pay + d <= pby then
        Line((pay + d - c) / a, pay + d, (pby - d - c) / a, pby - d)
      else if pay > pay - d >= pby then
        Line((pay - d - c) / a, pay - d, (pby + d - c) / a, pby + d)
      else Line(pax, pay, pbx, pby);
    assert l == PulledIn(pax, pay, pbx, pby, d) by {
      SlopeBound(a, pbx - pax, pby - pay);
      var m := Abs(pby - pay);
      assert Chebyshev(pax, pay, pbx, pby) == m;
      if d > 0.0 && m >= d {
        SignedFraction(d, pby - pay);
        SteepCase(pax, pay, pbx, pby, a, c, d, d / m);
      }
    }
    l
  }

  /** The larger of the two axis distances between two points. */
  function Chebyshev(px: real, py: real, qx: real, qy: real): real
  {
    Max(Abs(qx - px), Abs(qy - py))
  }

  /** The line t of the way from each centre towards the other. */
  function Towards(pax: real, pay: real, pbx: real, pby: real, t: real): Line
  {
    Line(pax + t * (pbx - pax), pay + t * (pby - pay), pbx - t * (pbx - pax), pby - t * (pby - pay))
  }

  /**
   * Reference form of the connection line: when d is positive and at most
   * the Chebyshev distance m of the centres, each endpoint is moved from its
   * centre along the centre-to-centre direction by the fraction d / m of it;
   * otherwise the line joins the centres.
   */
  function PulledIn(cax: real, cay: real, cbx: real, cby: real, d: real): Line
  {
    var m := Chebyshev(cax, cay, cbx, cby);
    if d > 0.0 && m >= d then Towards(cax, cay, cbx, cby, d / m)
    else Line(cax, cay, cbx, cby)
  }

  /** (px, py) lies on the outline of the square of half-side d centred at (cx, cy). */
  predicate OnOutline(px: real, py: real, cx: real, cy: real, d: real)
  {
    Chebyshev(cx, cy, px, py) == d
  }

  /** (px, py) lies on the straight line through (ax, ay) and (bx, yb). */
  predicate OnLine(px: real, py: real, ax: real, ay: real, bx: real, yb: real)
  {
    (px - ax) * (yb - ay) == (py - ay) * (bx - ax)
  }

  lemma DivUnique(x: real, y: real, q: real)
    requires q != 0.0 && x * q == y
    ensures x == y / q
  {
  }

  lemma AbsMul(a: real, u: real)
    ensures Abs(a * u) == Abs(a) * Abs(u)
  {
    if a >= 0.0 && u >= 0.0 { assert a * u >= 0.0; }
    else if a >= 0.0 { assert a * u <= 0.0; assert -(a * u) == a * (-u); }
    else if u >= 0.0 { assert a * u <= 0.0; assert -(a * u) == (-a) * u; }
    else { assert a * u > 0.0; assert a * u == (-a) * (-u); }
  }

  lemma ScaleAtMostOne(k: real, p: real)
    requires p > 0.0 && k >= 0.0
    ensures k <= 1.0 <==> k * p <= p
  {
    if k <= 1.0 { assert p - k * p == (1.0 - k) * p; }
    else { assert k * p - p == (k - 1.0) * p; }
  }

  lemma SlopeBound(a: real, dx: real, dy: real)
    requires dx != 0.0 && a * dx == dy
    ensures Abs(a) <= 1.0 <==> Abs(dy) <= Abs(dx)
  {
    AbsMul(a, dx);
    ScaleAtMostOne(Abs(a), Abs(dx));
  }

  lemma SlopeTimes(pax: real, pay: real, pbx: real, pby: real)
    requires pax != pbx
    ensures Slope(pax, pay, pbx, pby) * (pbx - pax) == pby - pay
  {
    var a := Slope(pax, pay, pbx, pby);
    assert a * (pax - pbx) == pay - pby;
    assert a * (pbx - pax) == -(a * (pax - pbx));
  }

  /** One endpoint of the shallow case, moved by e along x on y = a * x + c. */
  lemma ShallowPoint(a: real, c: real, px: real, py: real, e: real, t: real, u: real, w: real)
    requires c == py - a * px && w == a * u && t * u == e
    ensures a * (px + e) + c == py + t * w
  {
    assert t * w == a * (t * u);
  }

  /** One endpoint of the steep case, moved by e along y on x = (y - c) / a. */
  lemma SteepPoint(a: real, c: real, px: real, py: real, e: real, t: real, u: real, w: real)
    requires a != 0.0 && c == py - a * px && w == a * u && t * w == e
    ensures (py + e - c) / a == px + t * u
  {
    assert (px + t * u) * a == a * px + a * (t * u);
    assert a * (t * u) == t * w;
    DivUnique(px + t * u, py + e - c, a);
  }

  lemma FractionTimes(d: real, m: real)
    requires m > 0.0
    ensures d / m * m == d && (d > 0.0 && m >= d ==> 0.0 < d / m <= 1.0)
  {
  }

  /** The shallow case's moved endpoints, as a fraction t of the way between the centres. */
  lemma ShallowCase(pax: real, pay: real, pbx: real, pby: real, a: real, c: real, d: real, t: real)
    requires a * (pbx - pax) == pby - pay && c == pay - a * pax && d > 0.0
    requires if pbx - pax > 0.0 then t * (pbx - pax) == d && pbx - pax >= d
             else t * (pbx - pax) == -d && pax - pbx >= d
    ensures pbx - pax > 0.0 ==>
              Line(pax + d, a * (pax + d) + c, pbx - d, a * (pbx - d) + c) == Towards(pax, pay, pbx, pby, t)
    ensures pbx - pax <= 0.0 ==>
              Line(pax - d, a * (pax - d) + c, pbx + d, a * (pbx + d) + c) == Towards(pax, pay, pbx, pby, t)
  {
    var dx, dy := pbx - pax, pby - pay;
    assert c == pby - a * pbx by { assert a * pbx == a * pax + a * dx; }
    if dx > 0.0 {
      ShallowPoint(a, c, pax, pay, d, t, dx, dy);
      ShallowPoint(a, c, pbx, pby, -d, t, -dx, -dy);
    } else {
      ShallowPoint(a, c, pax, pay, -d, t, dx, dy);
      ShallowPoint(a, c, pbx, pby, d, t, -dx, -dy);
    }
  }

  /** The steep case's moved endpoints, as a fraction t of the way between the centres. */
  lemma SteepCase(pax: real, pay: real, pbx: real, pby: real, a: real, c: real, d: real, t: real)
    requires a != 0.0 && a * (pbx - pax) == pby - pay && c == pay - a * pax && d > 0.0
    requires if pby - pay > 0.0 then t * (pby - pay) == d && pby - pay >= d
             else t * (pby - pay) == -d && pay - pby >= d
    ensures pby - pay > 0.0 ==>
              Line((pay + d - c) / a, pay + d, (pby - d - c) / a, pby - d) == Towards(pax, pay, pbx, pby, t)
    ensures pby - pay <= 0.0 ==>
              Line((pay - d - c) / a, pay - d, (pby + d - c) / a, pby + d) == Towards(pax, pay, pbx, pby, t)
  {
    assert c == pby - a * pbx by { assert a * pbx == a * pax + a * (pbx - pax); }
    if pby - pay > 0.0 {
      SteepUp(pax, pay, pbx, pby, a, c, d, t);
    } else {
      SteepDown(pax, pay, pbx, pby, a, c, d, t);
    }
  }

  /** The steep case with the second centre above the first. */
  lemma SteepUp(pax: real, pay: real, pbx: real, pby: real, a: real, c: real, d: real, t: real)
    requires a != 0.0 && a * (pbx - pax) == pby - pay && c == pay - a * pax && c == pby - a * pbx && d > 0.0
    requires t * (pby - pay) == d && pby - pay >= d
    ensures Line((pay + d - c) / a, pay + d, (pby - d - c) / a, pby - d) == Towards(pax, pay, pbx, pby, t)
  {
    var dx, dy := pbx - pax, pby - pay;
    assert -dy == a * -dx;
    SteepPoint(a, c, pax, pay, d, t, dx, dy);
    SteepPoint(a, c, pbx, pby, -d, t, -dx, -dy);
  }

  /** The steep case with the second centre below the first. */
  lemma SteepDown(pax: real, pay: real, pbx: real, pby: real, a: real, c: real, d: real, t: real)
    requires a != 0.0 && a * (pbx - pax) == pby - pay && c == pay - a * pax && c == pby - a * pbx && d > 0.0
    requires t * (pby - pay) == -d && pay - pby >= d
    ensures Line((pay - d - c) / a, pay - d, (pby + d - c) / a, pby + d) == Towards(pax, pay, pbx, pby, t)
  {
    var dx, dy := pbx - pax, pby - pay;
    assert -dy == a * -dx;
    SteepPoint(a, c, pax, pay, -d, t, dx, dy);
    SteepPoint(a, c, pbx, pby, d, t, -dx, -dy);
  }

  lemma SignedFraction(d: real, u: real)
    requires u != 0.0 && d > 0.0
    ensures var t := d / Abs(u);
            if u > 0.0 then t * u == d else t * u == -d
  {
    var t := d / Abs(u);
    assert t * Abs(u) == d;
  }

  /**
   * The touch property: when the line is pulled in, each endpoint lies on the
   * outline of its own icon's square (half-side d around its centre) and on
   * the line through both centres.
   */
  lemma GetCoordTouchesOutlines(ax: real, ay: real, bx: real, yb: real, side: real)
    ensures var d := side / 2.0;
            var cax, cay, cbx, cby := ax + d, ay + d, bx + d, yb + d;
            var r := GetCoord(ax, ay, bx, yb, side);
            d > 0.0 && Chebyshev(cax, cay, cbx, cby) >= d ==>
              && OnOutline(r.x1, r.y1, cax, cay, d) && OnOutline(r.x2, r.y2, cbx, cby, d)
              && OnLine(r.x1, r.y1, cax, cay, cbx, cby) && OnLine(r.x2, r.y2, cax, cay, cbx, cby)
  {
    var d := side / 2.0;
    PulledInTouches(ax + d, ay + d, bx + d, yb + d, d);
  }

  lemma PulledInTouches(cax: real, cay: real, cbx: real, cby: real, d: real)
    ensures var r := PulledIn(cax, cay, cbx, cby, d);
            d > 0.0 && Chebyshev(cax, cay, cbx, cby) >= d ==>
              && OnOutline(r.x1, r.y1, cax, cay, d) && OnOutline(r.x2, r.y2, cbx, cby, d)
              && OnLine(r.x1, r.y1, cax, cay, cbx, cby) && OnLine(r.x2, r.y2, cax, cay, cbx, cby)
  {
    var m := Chebyshev(cax, cay, cbx, cby);
    if d > 0.0 && m >= d {
      FractionTimes(d, m);
      TowardsTouches(cax, cay, cbx, cby, d / m, m, d);
    }
  }

  lemma TowardsTouches(cax: real, cay: real, cbx: real, cby: real, t: real, m: real, d: real)
    requires t > 0.0 && m == Chebyshev(cax, cay, cbx, cby) && t * m == d
    ensures var r := Towards(cax, cay, cbx, cby, t);
            && OnOutline(r.x1, r.y1, cax, cay, d) && OnOutline(r.x2, r.y2, cbx, cby, d)
            && OnLine(r.x1, r.y1, cax, cay, cbx, cby) && OnLine(r.x2, r.y2, cax, cay, cbx, cby)
  {
    var r := Towards(cax, cay, cbx, cby, t);
    var dx, dy := cbx - cax, cby - cay;
    OutlineAt(r.x1, r.y1, cax, cay, dx, dy, t, m, d);
    OutlineAt(r.x2, r.y2, cbx, cby, dx, dy, t, m, d);
    TowardsOnLine(cax, cay, cbx, cby, t);
  }

  /** A point t * (u, w) away from (cx, cy), in either direction, and t times the Chebyshev norm of (u, w) is d. */
  lemma OutlineAt(px: real, py: real, cx: real, cy: real, u: real, w: real, t: real, m: real, d: real)
    requires t > 0.0 && m == Max(Abs(u), Abs(w)) && t * m == d
    requires (px == cx + t * u && py == cy + t * w) || (px == cx - t * u && py == cy - t * w)
    ensures OnOutline(px, py, cx, cy, d)
  {
    assert Abs(px - cx) == Abs(t * u) && Abs(py - cy) == Abs(t * w);
    ScaledChebyshev(t, u, w);
  }

  lemma TowardsOnLine(cax: real, cay: real, cbx: real, cby: real, t: real)
    ensures var r := Towards(cax, cay, cbx, cby, t);
            OnLine(r.x1, r.y1, cax, cay, cbx, cby) && OnLine(r.x2, r.y2, cax, cay, cbx, cby)
  {
    var dx, dy := cbx - cax, cby - cay;
    assert (t * dx) * dy == (t * dy) * dx;
    assert (dx - t * dx) * dy == (dy - t * dy) * dx;
  }

  lemma ScaledChebyshev(t: real, u: real, w: real)
    requires t > 0.0
    ensures Max(Abs(t * u), Abs(t * w)) == t * Max(Abs(u), Abs(w))
  {
    AbsMul(t, u);
    AbsMul(t, w);
    if Abs(u) >= Abs(w) { assert t * Abs(u) >= t * Abs(w); }
    else { assert t * Abs(u) < t * Abs(w); }
  }

  /** Case of the horizontal line: the endpoints move by exactly half a side along x. */
  lemma GetCoordHorizontal(ax: real, ay: real, bx: real, yb: real, side: real)
    requires ay == yb
    ensures var d := side / 2.0;
            var cax, cy, cbx := ax + d, ay + d, bx + d;
            var r := GetCoord(ax, ay, bx, yb, side);
            && (d > 0.0 && cbx >= cax + d ==> r == Line(cax + d, cy, cbx - d, cy))
            && (d > 0.0 && cbx <= cax - d ==> r == Line(cax - d, cy, cbx + d, cy))
            && (Abs(cbx - cax) < d ==> r == Line(cax, cy, cbx, cy))
  {
  }
}
