/**
 * Plane geometry of `generateDrawing`: `rotatePoint`, the outline of one part
 * (two edges offset by half the component width and a half-circle cap at each
 * joint), the offsets of the per-part construction planes and the depth of the
 * hole cut.
 */
module Layout {

  datatype Vec = Vec(x: real, y: real)

  function Add(a: Vec, b: Vec): Vec { Vec(a.x + b.x, a.y + b.y) }
  function Sub(a: Vec, b: Vec): Vec { Vec(a.x - b.x, a.y - b.y) }
  function Neg(a: Vec): Vec { Vec(-a.x, -a.y) }
  function Dot(a: Vec, b: Vec): real { a.x * b.x + a.y * b.y }
  function Norm2(a: Vec): real { Dot(a, a) }

  /** The sketch curves the script creates. */
  datatype Curve =
    | Line(from: Vec, to: Vec)                     // addByTwoPoints
    | Arc(center: Vec, start: Vec, sweep: real)    // addByCenterStartSweep
    | Circle(center: Vec, radius: real)            // addByCenterRadius

  /**
   * `Math.cos`, `Math.sin`, `Math.atan2` and `Math.PI`. They are parameters: the
   * lemmas below state the identities they rely on as preconditions at the
   * angles involved.
   */
  datatype Trig = Trig(cos: real -> real, sin: real -> real, atan2: (real, real) -> real, pi: real)

  /** `90 * Math.PI / 180`. */
  function RightAngle(trig: Trig): real { 90.0 * trig.pi / 180.0 }

  predicate UnitCircle(trig: Trig, a: real) {
    trig.cos(a) * trig.cos(a) + trig.sin(a) * trig.sin(a) == 1.0
  }

  /** `rotatePoint`: the point (x, y) turned by `angle` about (xOrigin, yOrigin). */
  function RotatePoint(trig: Trig, angle: real, x: real, y: real, xOrigin: real, yOrigin: real): Vec {
    Vec(trig.cos(angle) * (x - xOrigin) - trig.sin(angle) * (y - yOrigin) + xOrigin,
        trig.sin(angle) * (x - xOrigin) + trig.cos(angle) * (y - yOrigin) + yOrigin)
  }

  lemma RotationSquares(c: real, s: real, dx: real, dy: real)
    ensures (c * dx - s * dy) * (c * dx - s * dy) + (s * dx + c * dy) * (s * dx + c * dy)
         == (c * c + s * s) * (dx * dx + dy * dy)
  {
  }

  /** A rotation keeps the distance to its centre. */
  lemma {:induction false} RotationKeepsDistance(trig: Trig, angle: real, x: real, y: real, xOrigin: real, yOrigin: real)
    requires UnitCircle(trig, angle)
    ensures Norm2(Sub(RotatePoint(trig, angle, x, y, xOrigin, yOrigin), Vec(xOrigin, yOrigin)))
         == Norm2(Sub(Vec(x, y), Vec(xOrigin, yOrigin)))
  {
    var c, s := trig.cos(angle), trig.sin(angle);
    RotationSquares(c, s, x - xOrigin, y - yOrigin);
    assert c * c + s * s == 1.0;
  }

  /** Turning by `angle` and then by its opposite gives the point back. */
  lemma {:induction false} RotationInverse(trig: Trig, angle: real, x: real, y: real, xOrigin: real, yOrigin: real)
    requires UnitCircle(trig, angle)
    requires trig.cos(-angle) == trig.cos(angle) && trig.sin(-angle) == -trig.sin(angle)
    ensures var r := RotatePoint(trig, angle, x, y, xOrigin, yOrigin);
            RotatePoint(trig, -angle, r.x, r.y, xOrigin, yOrigin) == Vec(x, y)
  {
    var c, s := trig.cos(angle), trig.sin(angle);
    var dx, dy := x - xOrigin, y - yOrigin;
    var r := RotatePoint(trig, angle, x, y, xOrigin, yOrigin);
    assert r.x - xOrigin == c * dx - s * dy;
    assert r.y - yOrigin == s * dx + c * dy;
    calc {
      c * (c * dx - s * dy) + s * (s * dx + c * dy);
      (c * c + s * s) * dx;
      dx;
    }
    calc {
      -s * (c * dx - s * dy) + c * (s * dx + c * dy);
      (c * c + s * s) * dy;
      dy;
    }
  }

  /** Direction of a member, the angle `Math.atan2` gives it, and the two edge offsets. */
  function MemberAngle(p0: Vec, p1: Vec, trig: Trig): real {
    trig.atan2(p1.y - p0.y, p1.x - p0.x)
  }

  function EdgeOffset1(p0: Vec, p1: Vec, halfWidth: real, trig: Trig): Vec {
    RotatePoint(trig, MemberAngle(p0, p1, trig) + RightAngle(trig), halfWidth, 0.0, 0.0, 0.0)
  }

  function EdgeOffset2(p0: Vec, p1: Vec, halfWidth: real, trig: Trig): Vec {
    RotatePoint(trig, MemberAngle(p0, p1, trig) - RightAngle(trig), halfWidth, 0.0, 0.0, 0.0)
  }

  /**
   * The curves of one part sketch, in the order they are added: edge 1, the
   * start cap, edge 2, the end cap.
   */
  function Outline(p0: Vec, p1: Vec, halfWidth: real, trig: Trig): seq<Curve> {
    var off1 := EdgeOffset1(p0, p1, halfWidth, trig);
    var off2 := EdgeOffset2(p0, p1, halfWidth, trig);
    var edge1Start, edge1End := Add(p0, off1), Add(p1, off1);
    var edge2Start, edge2End := Add(p0, off2), Add(p1, off2);
    [Line(edge1Start, edge1End), Arc(p0, edge1Start, trig.pi),
     Line(edge2Start, edge2End), Arc(p1, edge2End, trig.pi)]
  }

  /** The shape of an outline, whatever the trigonometric functions return. */
  lemma OutlineShape(p0: Vec, p1: Vec, halfWidth: real, trig: Trig)
    ensures var cs := Outline(p0, p1, halfWidth, trig);
            && |cs| == 4
            && cs[0].Line? && cs[1].Arc? && cs[2].Line? && cs[3].Arc?
            // both edges run parallel to the member, from its start joint to its end joint
            && Sub(cs[0].to, cs[0].from) == Sub(p1, p0) && Sub(cs[2].to, cs[2].from) == Sub(p1, p0)
            && Sub(cs[0].from, p0) == EdgeOffset1(p0, p1, halfWidth, trig)
            && Sub(cs[2].from, p0) == EdgeOffset2(p0, p1, halfWidth, trig)
            // the caps are half turns about the joints, starting on edge 1 and at the end of edge 2
            && cs[1].center == p0 && cs[1].start == cs[0].from && cs[1].sweep == trig.pi
            && cs[3].center == p1 && cs[3].start == cs[2].to && cs[3].sweep == trig.pi
  {
  }

  /** Where an arc ends: its start turned by the sweep about the centre. */
  function ArcEnd(trig: Trig, center: Vec, start: Vec, sweep: real): Vec {
    RotatePoint(trig, sweep, start.x, start.y, center.x, center.y)
  }

  /**
   * What `Math.atan2` promises about the member's angle: the unit vector at that
   * angle points along the member. With the quarter-turn identities at that
   * angle and the half turn at `Math.PI`, the outline is a closed slot.
   */
  predicate AlongMember(trig: Trig, a: real, d: Vec) {
    && UnitCircle(trig, a)
    && trig.cos(a) * d.y == trig.sin(a) * d.x
    && trig.cos(a) * d.x + trig.sin(a) * d.y >= 0.0
  }

  predicate QuarterTurns(trig: Trig, a: real) {
    var r := RightAngle(trig);
    && trig.cos(a + r) == -trig.sin(a) && trig.sin(a + r) == trig.cos(a)
    && trig.cos(a - r) == trig.sin(a) && trig.sin(a - r) == -trig.cos(a)
  }

  predicate HalfTurn(trig: Trig) {
    trig.cos(trig.pi) == -1.0 && trig.sin(trig.pi) == 0.0
  }

  /** The two offsets in terms of the cosine and sine of the member's angle. */
  lemma EdgeOffsets(p0: Vec, p1: Vec, halfWidth: real, trig: Trig)
    requires QuarterTurns(trig, MemberAngle(p0, p1, trig))
    ensures var a := MemberAngle(p0, p1, trig);
            && EdgeOffset1(p0, p1, halfWidth, trig) == Vec(-trig.sin(a) * halfWidth, trig.cos(a) * halfWidth)
            && EdgeOffset2(p0, p1, halfWidth, trig) == Vec(trig.sin(a) * halfWidth, -trig.cos(a) * halfWidth)
  {
  }

  /** The two edges sit on opposite sides of the member. */
  lemma EdgesOpposite(p0: Vec, p1: Vec, halfWidth: real, trig: Trig)
    requires QuarterTurns(trig, MemberAngle(p0, p1, trig))
    ensures EdgeOffset2(p0, p1, halfWidth, trig) == Neg(EdgeOffset1(p0, p1, halfWidth, trig))
  {
    EdgeOffsets(p0, p1, halfWidth, trig);
  }

  /** An edge is offset square to the member. */
  lemma {:induction false} EdgeSquareToMember(p0: Vec, p1: Vec, halfWidth: real, trig: Trig)
    requires AlongMember(trig, MemberAngle(p0, p1, trig), Sub(p1, p0))
    requires QuarterTurns(trig, MemberAngle(p0, p1, trig))
    ensures Dot(EdgeOffset1(p0, p1, halfWidth, trig), Sub(p1, p0)) == 0.0
  {
    var a := MemberAngle(p0, p1, trig);
    var c, s := trig.cos(a), trig.sin(a);
    var d := Sub(p1, p0);
    EdgeOffsets(p0, p1, halfWidth, trig);
    calc {
      Dot(EdgeOffset1(p0, p1, halfWidth, trig), d);
      -s * halfWidth * d.x + c * halfWidth * d.y;
      halfWidth * (c * d.y - s * d.x);
      0.0;
    }
  }

  /** An edge is offset by half the component width. */
  lemma {:induction false} EdgeAtHalfWidth(p0: Vec, p1: Vec, halfWidth: real, trig: Trig)
    requires AlongMember(trig, MemberAngle(p0, p1, trig), Sub(p1, p0))
    requires QuarterTurns(trig, MemberAngle(p0, p1, trig))
    ensures Norm2(EdgeOffset1(p0, p1, halfWidth, trig)) == halfWidth * halfWidth
  {
    var a := MemberAngle(p0, p1, trig);
    var c, s := trig.cos(a), trig.sin(a);
    EdgeOffsets(p0, p1, halfWidth, trig);
    calc {
      Norm2(EdgeOffset1(p0, p1, halfWidth, trig));
      (s * s + c * c) * (halfWidth * halfWidth);
      halfWidth * halfWidth;
    }
  }

  /** The start cap turns the start of edge 1 into the start of edge 2. */
  lemma {:induction false} StartCapCloses(p0: Vec, p1: Vec, halfWidth: real, trig: Trig)
    requires QuarterTurns(trig, MemberAngle(p0, p1, trig))
    requires HalfTurn(trig)
    ensures var cs := Outline(p0, p1, halfWidth, trig);
            ArcEnd(trig, cs[1].center, cs[1].start, cs[1].sweep) == cs[2].from
  {
    EdgesOpposite(p0, p1, halfWidth, trig);
  }

  /** The end cap turns the end of edge 2 into the end of edge 1. */
  lemma {:induction false} EndCapCloses(p0: Vec, p1: Vec, halfWidth: real, trig: Trig)
    requires QuarterTurns(trig, MemberAngle(p0, p1, trig))
    requires HalfTurn(trig)
    ensures var cs := Outline(p0, p1, halfWidth, trig);
            ArcEnd(trig, cs[3].center, cs[3].start, cs[3].sweep) == cs[0].to
  {
    EdgesOpposite(p0, p1, halfWidth, trig);
  }

  /** The two edges in terms of the cosine and sine of the member's angle. */
  lemma OutlineEdges(p0: Vec, p1: Vec, halfWidth: real, trig: Trig)
    requires QuarterTurns(trig, MemberAngle(p0, p1, trig))
    ensures var c, s := trig.cos(MemberAngle(p0, p1, trig)), trig.sin(MemberAngle(p0, p1, trig));
            var cs := Outline(p0, p1, halfWidth, trig);
            && cs[0] == Line(Vec(p0.x - s * halfWidth, p0.y + c * halfWidth), Vec(p1.x - s * halfWidth, p1.y + c * halfWidth))
            && cs[2] == Line(Vec(p0.x + s * halfWidth, p0.y - c * halfWidth), Vec(p1.x + s * halfWidth, p1.y - c * halfWidth))
  {
    EdgeOffsets(p0, p1, halfWidth, trig);
  }

  /** Spacing of the construction planes: `extrudeDistPerSketch = ExtrudeDist * 1.2`. */
  function PerSketch(extrudeDist: real): real { extrudeDist * 1.2 }

  /** Offset of the construction plane of the member at `position` in the key list. */
  function PlaneOffset(position: nat, extrudeDist: real): real {
    position as real * PerSketch(extrudeDist)
  }

  /** Depth of the hole cut: one spacing more than the number of parts. */
  function CutDepth(parts: nat, extrudeDist: real): real {
    (parts + 1) as real * PerSketch(extrudeDist)
  }

  lemma ProductMonotonic(a: real, b: real, d: real)
    requires a < b && d > 0.0
    ensures a * d < b * d
  {
  }

  /** Each part is extruded `extrudeDist` up from its plane, so the slabs never touch. */
  lemma {:induction false} SlabsDisjoint(i: nat, j: nat, extrudeDist: real)
    requires extrudeDist > 0.0 && i < j
    ensures PlaneOffset(i, extrudeDist) < PlaneOffset(j, extrudeDist)
    ensures PlaneOffset(i, extrudeDist) + extrudeDist < PlaneOffset(j, extrudeDist)
  {
    ProductMonotonic(i as real * 1.2 + 1.0, j as real * 1.2, extrudeDist);
  }

  /**
   * The hole cut goes right through the slab at `position` exactly when that
   * position is at most the number of parts.
   */
  lemma {:induction false} CutReachesSlab(position: nat, parts: nat, extrudeDist: real)
    requires extrudeDist > 0.0
    ensures PlaneOffset(position, extrudeDist) + extrudeDist <= CutDepth(parts, extrudeDist)
        <==> position <= parts
  {
    var top := PlaneOffset(position, extrudeDist) + extrudeDist;
    assert top == (position as real * 1.2 + 1.0) * extrudeDist;
    assert CutDepth(parts, extrudeDist) == (parts as real * 1.2 + 1.2) * extrudeDist;
    if position <= parts {
      ProductMonotonic(position as real * 1.2 + 1.0, parts as real * 1.2 + 1.2, extrudeDist);
    } else {
      ProductMonotonic(parts as real * 1.2 + 1.2, position as real * 1.2 + 1.0, extrudeDist);
    }
  }
}
