/**
 * `generateDrawing` and the command handler that calls it: the instructions
 * sketch with one line per member, and, when extruding, one offset plane and
 * one slot-shaped sketch per member, two hole circles per member on a shared
 * sketch, a new-body extrude of every part profile, a cut of every hole
 * profile, and a timeline group around those features.
 */
module Drawing {
  import opened Wrappers
  import opened Layout
  import opened Engine
  import opened AfeModel
  import Units
  import Parameters

  /** What both passes read from the model. */
  datatype View = View(unit: string, scale: real, joints: map<string, Element>, components: map<string, Element>)

  function ViewOf(m: ImportModel): View
    reads m
  {
    View(m.lengthUnit, m.scale, m.joints, m.components)
  }

  /** A joint origin converted to cm and multiplied by the scale. */
  function Scaled(unit: string, scale: real, p: Point): Vec {
    Vec(Units.ToCm(unit, p.x) * scale, Units.ToCm(unit, p.y) * scale)
  }

  /** The scaled start and end of a member, when both its joints are in the table and have an origin. */
  function MemberEnds(v: View, comp: Element): Option<(Vec, Vec)> {
    match LookupMember(v.joints, comp)
    case Found(p, q) => Some((Scaled(v.unit, v.scale, p), Scaled(v.unit, v.scale, q)))
    case _ => None
  }

  predicate Keyed(ids: seq<string>, components: map<string, Element>) {
    forall i :: 0 <= i < |ids| ==> ids[i] in components
  }

  /** What the member at each position of the key list resolves to: its two ends, or nothing. */
  type Ends = seq<Option<(Vec, Vec)>>

  function Resolve(v: View, ids: seq<string>): (ends: Ends)
    requires Keyed(ids, v.components)
    ensures |ends| == |ids|
  {
    seq(|ids|, i requires 0 <= i < |ids| => MemberEnds(v, v.components[ids[i]]))
  }

  /** `ends` is what the members keyed by `ids` resolve to. */
  ghost predicate Resolves(v: View, ids: seq<string>, ends: Ends)
    requires Keyed(ids, v.components)
  {
    && |ends| == |ids|
    && forall i {:trigger MemberEnds(v, v.components[ids[i]])} :: 0 <= i < |ids| ==>
         ends[i] == MemberEnds(v, v.components[ids[i]])
  }

  lemma ResolveResolves(v: View, ids: seq<string>)
    requires Keyed(ids, v.components)
    ensures Resolves(v, ids, Resolve(v, ids))
  {
    forall i | 0 <= i < |ids| ensures Resolve(v, ids)[i] == MemberEnds(v, v.components[ids[i]]) {
    }
  }

  /** A member that both passes draw: its position in the key list and its scaled joint origins. */
  datatype Part = Part(position: nat, start: Vec, end: Vec)

  /**
   * The members the two loops draw among the first `n` keys, in key order. A
   * member a joint of which is missing is skipped but keeps its place in the
   * count.
   */
  function Parts(ends: Ends, n: nat): seq<Part>
    requires n <= |ends|
  {
    if n == 0 then [] else Parts(ends, n - 1) + PartOf(ends, n - 1)
  }

  /** What the member at position `i` adds: its part, or nothing when it is skipped. */
  function PartOf(ends: Ends, i: nat): (part: seq<Part>)
    requires i < |ends|
    ensures |part| == if ends[i].Some? then 1 else 0
  {
    match ends[i]
    case Some((p0, p1)) => [Part(i, p0, p1)]
    case None => []
  }

  /** Every part is a member among the first `n` that resolves, drawn from its ends. */
  lemma {:induction false} PartsAreResolvedMembers(ends: Ends, n: nat)
    requires n <= |ends|
    ensures forall k :: 0 <= k < |Parts(ends, n)| ==>
              Parts(ends, n)[k].position < n &&
              ends[Parts(ends, n)[k].position] == Some((Parts(ends, n)[k].start, Parts(ends, n)[k].end))
  {
    if n > 0 {
      PartsAreResolvedMembers(ends, n - 1);
      var ps0, ps, last := Parts(ends, n - 1), Parts(ends, n), PartOf(ends, n - 1);
      assert ps == ps0 + last;
      forall k | 0 <= k < |ps| ensures ps[k].position < n && ends[ps[k].position] == Some((ps[k].start, ps[k].end)) {
        if k < |ps0| {
          assert ps[k] == ps0[k];
        } else {
          assert ps[k] == last[0];
        }
      }
    }
  }

  /** The parts come in key order: positions strictly increase. */
  lemma {:induction false} PartsInKeyOrder(ends: Ends, n: nat)
    requires n <= |ends|
    ensures forall j, k :: 0 <= j < k < |Parts(ends, n)| ==> Parts(ends, n)[j].position < Parts(ends, n)[k].position
  {
    if n > 0 {
      PartsInKeyOrder(ends, n - 1);
      PartsAreResolvedMembers(ends, n - 1);
      var ps0, ps, last := Parts(ends, n - 1), Parts(ends, n), PartOf(ends, n - 1);
      assert ps == ps0 + last;
      forall j, k | 0 <= j < k < |ps| ensures ps[j].position < ps[k].position {
        assert ps[j] == ps0[j];
        if k < |ps0| {
          assert ps[k] == ps0[k];
        } else {
          assert ps[k] == last[0];
        }
      }
    }
  }

  /** Every member that resolves is drawn, at its own position. */
  lemma {:induction false} PartsIncludeResolvedMembers(ends: Ends, n: nat, i: nat)
    requires i < n <= |ends| && ends[i].Some?
    ensures exists k :: 0 <= k < |Parts(ends, n)| && Parts(ends, n)[k].position == i
  {
    if i < n - 1 {
      PartsIncludeResolvedMembers(ends, n - 1, i);
      var k :| 0 <= k < |Parts(ends, n - 1)| && Parts(ends, n - 1)[k].position == i;
      assert Parts(ends, n)[k] == Parts(ends, n - 1)[k];
    } else {
      assert Parts(ends, n)[|Parts(ends, n - 1)|].position == i;
    }
  }

  /** With no member skipped, the parts are the members themselves, in order. */
  lemma {:induction false} PartsWithoutSkips(ends: Ends, n: nat)
    requires n <= |ends|
    requires forall i :: 0 <= i < n ==> ends[i].Some?
    ensures |Parts(ends, n)| == n
    ensures forall k :: 0 <= k < n ==> Parts(ends, n)[k].position == k
  {
    if n > 0 {
      PartsWithoutSkips(ends, n - 1);
      var ps0, ps := Parts(ends, n - 1), Parts(ends, n);
      assert ends[n - 1].Some?;
      assert |ps| == n && ps[n - 1].position == n - 1;
      forall k | 0 <= k < n - 1 ensures ps[k].position == k {
        assert ps[k] == ps0[k];
      }
    }
  }

  // ----- names and indices ------------------------------------------------------------

  /** The sketch of the first pass and the sketch of the hole circles, both on the XZ plane. */
  const InstructionsSketch: Sketch := Sketch(Text("Instructions"), BasePlane)
  const HolesSketch: Sketch := Sketch(Text("PartsHoles"), BasePlane)

  /** `'Part - ' + iComp`. */
  const PartPrefix: string := "Part - "
  function PartName(position: nat): Name { Numbered(PartPrefix, position) }

  /** `count` consecutive indices from `first`. */
  function Consecutive(first: nat, count: nat): seq<nat> {
    seq(count, k requires 0 <= k < count => first + k)
  }

  lemma ConsecutiveNext(first: nat, count: nat)
    ensures Consecutive(first, count) + [first + count] == Consecutive(first, count + 1)
  {
    var longer := Consecutive(first, count) + [first + count];
    forall k | 0 <= k < count + 1 ensures longer[k] == Consecutive(first, count + 1)[k] {
      if k < count {
        assert longer[k] == Consecutive(first, count)[k];
      }
    }
  }

  // ----- what the passes make ------------------------------------------------------
  //
  // Each function below takes the design's collections before one step of the
  // script and gives them after it, in the order the script makes its calls.

  /** The curves `cs` added to sketch `sketch`, one after the other. */
  function WithCurves(st: State, sketch: nat, cs: seq<Curve>): State {
    st.(curves := st.curves[sketch := Curves(st, sketch) + cs])
  }

  /** Four curves added one at a time make the same sketch as the four added together. */
  lemma FourCurves(st: State, sketch: nat, c0: Curve, c1: Curve, c2: Curve, c3: Curve)
    ensures WithCurve(WithCurve(WithCurve(WithCurve(st, sketch, c0), sketch, c1), sketch, c2), sketch, c3) ==
            WithCurves(st, sketch, [c0, c1, c2, c3])
  {
    var cs := Curves(st, sketch);
    assert cs + [c0] + [c1] + [c2] + [c3] == cs + [c0, c1, c2, c3];
  }

  /** The instruction line of a member, if it is drawn. */
  function WithLine(st: State, part: seq<Part>, sketch: nat): State {
    if part == [] then st else WithCurve(st, sketch, Line(part[0].start, part[0].end))
  }

  /** The first `n` turns of the first loop, drawing on sketch `sketch`. */
  function WithInstructions(st: State, ends: Ends, n: nat, sketch: nat): State
    requires n <= |ends|
  {
    if n == 0 then st else WithLine(WithInstructions(st, ends, n - 1, sketch), PartOf(ends, n - 1), sketch)
  }

  /** The dimensions the second loop draws with. */
  datatype Settings = Settings(halfWidth: real, holeDiameter: real, extrudeDist: real, trig: Trig)

  /**
   * A turn of the second loop for a member that is drawn: a new plane, a new
   * sketch on that plane holding the four outline curves, and the two hole
   * circles on sketch `holes`, an earlier sketch. `outline` is the part's
   * outline, `OutlineOf(part, s)`.
   */
  function WithPart(st: State, part: seq<Part>, outline: seq<Curve>, holes: nat, s: Settings): State {
    if part == [] then st
    else
      var p := part[0];
      var offset := PlaneOffset(p.position, s.extrudeDist);
      var sk := Sketch(PartName(p.position), OffsetPlane(|st.planes|));
      var outlined := st.curves[|st.sketches| := Curves(st, |st.sketches|) + outline];
      State(st.planes + [offset], st.sketches + [sk],
            outlined[holes := Curves(st, holes) + [Circle(p.start, s.holeDiameter / 2.0), Circle(p.end, s.holeDiameter / 2.0)]],
            st.timeline + [PlaneEntry(offset), SketchEntry(sk)], st.groups)
  }

  /** The host calls of a turn of the second loop, one after the other, make what `WithPart` says. */
  lemma PartCalls(st: State, p: Part, holes: nat, s: Settings)
    requires holes < |st.sketches|
    ensures var offset := PlaneOffset(p.position, s.extrudeDist);
            var placed := WithSketch(WithPlane(st, offset), Sketch(PartName(p.position), OffsetPlane(|st.planes|)));
            var outlined := WithCurves(placed, |st.sketches|, Outline(p.start, p.end, s.halfWidth, s.trig));
            WithCurve(WithCurve(outlined, holes, Circle(p.start, s.holeDiameter / 2.0)), holes, Circle(p.end, s.holeDiameter / 2.0))
            == WithPart(st, [p], Outline(p.start, p.end, s.halfWidth, s.trig), holes, s)
  {
    var c0, c1 := Circle(p.start, s.holeDiameter / 2.0), Circle(p.end, s.holeDiameter / 2.0);
    assert Curves(st, holes) + [c0] + [c1] == Curves(st, holes) + [c0, c1];
  }

  /** The outline the second loop draws for a member, if it is drawn. */
  function OutlineOf(part: seq<Part>, s: Settings): seq<Curve> {
    if part == [] then [] else Outline(part[0].start, part[0].end, s.halfWidth, s.trig)
  }

  /** The outline of the member at each position of the key list. */
  function Outlines(ends: Ends, s: Settings): (outlines: seq<seq<Curve>>)
    ensures |outlines| == |ends|
  {
    seq(|ends|, i requires 0 <= i < |ends| => OutlineOf(PartOf(ends, i), s))
  }

  /** The first `n` turns of the second loop, with `outlines` the members' outlines. */
  function WithParts(st: State, ends: Ends, outlines: seq<seq<Curve>>, n: nat, holes: nat, s: Settings): State
    requires n <= |ends| == |outlines|
  {
    if n == 0 then st
    else WithPart(WithParts(st, ends, outlines, n - 1, holes, s), PartOf(ends, n - 1), outlines[n - 1], holes, s)
  }

  /** The timeline entries of an extrude of each of the first `n` profiles of one sketch, in profile order. */
  function ExtrudeEntries(sketch: nat, n: nat, op: Operation, distance: real): seq<Entry> {
    if n == 0 then [] else ExtrudeEntries(sketch, n - 1, op, distance) + [ExtrudeEntry(Extrusion(sketch, n - 1, op, distance))]
  }

  function WithExtrusions(st: State, sketch: nat, n: nat, op: Operation, distance: real): State {
    st.(timeline := st.timeline + ExtrudeEntries(sketch, n, op, distance))
  }

  /**
   * The new-body extrudes of every profile of each of the first `n` part
   * sketches, sketch by sketch, counting the profiles of the curves the
   * sketches hold in `base`.
   */
  function BodyEntries(base: State, profileCount: seq<Curve> -> nat, sketches: seq<nat>, n: nat, distance: real): seq<Entry>
    requires n <= |sketches|
  {
    if n == 0 then []
    else
      var sketch := sketches[n - 1];
      BodyEntries(base, profileCount, sketches, n - 1, distance) +
      ExtrudeEntries(sketch, profileCount(Curves(base, sketch)), NewBody, distance)
  }

  function WithBodies(st: State, base: State, profileCount: seq<Curve> -> nat, sketches: seq<nat>, n: nat,
                      distance: real): State
    requires n <= |sketches|
  {
    st.(timeline := st.timeline + BodyEntries(base, profileCount, sketches, n, distance))
  }

  /** The group of the timeline entries from `first` on, when there are at least two. */
  function WithGroupFrom(st: State, first: nat): State {
    var last := |st.timeline| - 1;
    if last > first then WithGroup(st, Group(first, last)) else st
  }

  /**
   * What follows the two passes when extruding, after `parts`: the new-body
   * extrudes of the `n` part sketches that follow sketch `holes`, the cut of
   * every hole profile through all slabs, and the group of those features.
   */
  function WithFeatures(parts: State, holes: nat, n: nat, extrudeDist: real, profileCount: seq<Curve> -> nat): State {
    var bodies := WithBodies(parts, parts, profileCount, Consecutive(holes + 1, n), n, extrudeDist);
    var cut := WithExtrusions(bodies, holes, profileCount(Curves(parts, holes)), Cut, CutDepth(n, extrudeDist));
    WithGroupFrom(cut, |parts.timeline|)
  }

  /**
   * Everything `generateDrawing` makes: the instructions sketch and its lines;
   * when extruding, also the holes sketch, the planes, sketches and curves of
   * the parts, and the features that follow.
   */
  function WithDrawing(st: State, ends: Ends, s: Settings, doExtrude: bool, profileCount: seq<Curve> -> nat): State {
    var instructions := |st.sketches|;
    var lines := WithInstructions(WithSketch(st, InstructionsSketch), ends, |ends|, instructions);
    if !doExtrude then lines
    else
      var holes := instructions + 1;
      var parts := WithParts(WithSketch(lines, HolesSketch), ends, Outlines(ends, s), |ends|, holes, s);
      WithFeatures(parts, holes, |Parts(ends, |ends|)|, s.extrudeDist, profileCount)
  }

  // ----- the passes ------------------------------------------------------------------

  /**
   * The lookups both loops make for one member: its two joints, their
   * `"Origin"` points, converted to cm and scaled. `None` is the `continue`
   * for a missing joint, and also stands for a missing joint reference,
   * `Point` child or origin, which the script would fail on.
   */
  method JointEnds(v: View, comp: Element) returns (r: Option<(Vec, Vec)>)
    ensures r == MemberEnds(v, comp)
  {
    if comp.startJoint.None? || comp.endJoint.None? {
      return None;
    }
    if comp.startJoint.value !in v.joints || comp.endJoint.value !in v.joints {
      return None;
    }
    var startPoints := v.joints[comp.startJoint.value].points;
    var endPoints := v.joints[comp.endJoint.value].points;
    if startPoints.None? || endPoints.None? {
      return None;
    }
    var ptStartSrc := GetJointPoint(startPoints.value, "Origin");
    var ptEndSrc := GetJointPoint(endPoints.value, "Origin");
    if ptStartSrc.None? || ptEndSrc.None? {
      return None;
    }
    assert LookupMember(v.joints, comp) == Found(ptStartSrc.value, ptEndSrc.value);
    var xStart := Units.ToCm(v.unit, ptStartSrc.value.x) * v.scale;
    var yStart := Units.ToCm(v.unit, ptStartSrc.value.y) * v.scale;
    var xEnd := Units.ToCm(v.unit, ptEndSrc.value.x) * v.scale;
    var yEnd := Units.ToCm(v.unit, ptEndSrc.value.y) * v.scale;
    assert Scaled(v.unit, v.scale, ptStartSrc.value) == Vec(xStart, yStart);
    assert Scaled(v.unit, v.scale, ptEndSrc.value) == Vec(xEnd, yEnd);
    return Some((Vec(xStart, yStart), Vec(xEnd, yEnd)));
  }

  /** One turn of the first loop: the line of member `ids[i]`, if it is drawn. */
  method DrawInstructionLine(v: View, design: Design, ids: seq<string>, ghost ends: Ends, i: nat, index: nat)
    requires Keyed(ids, v.components) && Resolves(v, ids, ends) && i < |ids|
    requires index < |design.sketches|
    modifies design
    ensures design.Snapshot() == WithLine(old(design.Snapshot()), PartOf(ends, i), index)
  {
    var r := JointEnds(v, v.components[ids[i]]);
    if r.None? {
      return;
    }
    var (ptStart, ptEnd) := r.value;
    assert PartOf(ends, i) == [Part(i, ptStart, ptEnd)];
    design.AddCurve(index, Line(ptStart, ptEnd));
  }

  /** The first pass: the "Instructions" sketch on the base plane, one line per part. */
  method DrawInstructions(v: View, design: Design, ids: seq<string>, ghost ends: Ends) returns (index: nat)
    requires Keyed(ids, v.components) && Resolves(v, ids, ends) && |ends| == |ids|
    modifies design
    ensures index == |old(design.sketches)|
    ensures design.Snapshot() ==
      WithInstructions(WithSketch(old(design.Snapshot()), InstructionsSketch), ends, |ids|, index)
    ensures |design.sketches| == index + 1
  {
    index := design.AddSketch(InstructionsSketch.name, BasePlane);
    ghost var start := design.Snapshot();
    for i := 0 to |ids|
      invariant design.Snapshot() == WithInstructions(start, ends, i, index)
      invariant |design.sketches| == index + 1
    {
      DrawInstructionLine(v, design, ids, ends, i, index);
    }
  }

  /** The four curves of a part outline, in the order the script adds them. */
  method DrawOutline(design: Design, index: nat, ptStart: Vec, ptEnd: Vec, halfWidth: real, trig: Trig)
    requires index < |design.sketches|
    modifies design
    ensures design.Snapshot() == WithCurves(old(design.Snapshot()), index, Outline(ptStart, ptEnd, halfWidth, trig))
  {
    var angleRadians := trig.atan2(ptEnd.y - ptStart.y, ptEnd.x - ptStart.x);
    var angle90InRadians := 90.0 * trig.pi / 180.0;
    var ptEdgeOffset1 := RotatePoint(trig, angleRadians + angle90InRadians, halfWidth, 0.0, 0.0, 0.0);
    var ptEdgeOffset2 := RotatePoint(trig, angleRadians - angle90InRadians, halfWidth, 0.0, 0.0, 0.0);
    var edge1Start := Vec(ptStart.x + ptEdgeOffset1.x, ptStart.y + ptEdgeOffset1.y);
    var edge1End := Vec(ptEnd.x + ptEdgeOffset1.x, ptEnd.y + ptEdgeOffset1.y);
    var edge2Start := Vec(ptStart.x + ptEdgeOffset2.x, ptStart.y + ptEdgeOffset2.y);
    var edge2End := Vec(ptEnd.x + ptEdgeOffset2.x, ptEnd.y + ptEdgeOffset2.y);
    var line1, arc1 := Line(edge1Start, edge1End), Arc(ptStart, edge1Start, trig.pi);
    var line2, arc2 := Line(edge2Start, edge2End), Arc(ptEnd, edge2End, trig.pi);
    assert [line1, arc1, line2, arc2] == Outline(ptStart, ptEnd, halfWidth, trig);
    FourCurves(design.Snapshot(), index, line1, arc1, line2, arc2);
    design.AddCurve(index, line1);
    design.AddCurve(index, arc1);
    design.AddCurve(index, line2);
    design.AddCurve(index, arc2);
  }

  /**
   * One turn of the second loop: for a drawn member, a plane offset by its
   * position, a sketch named after the position holding the outline, and two
   * circles on the holes sketch. Returns the new sketch's index, if any.
   */
  method DrawPart(v: View, s: Settings, extrudeDistPerSketch: real, design: Design, ids: seq<string>, ghost ends: Ends,
                  i: nat, holes: nat)
    returns (added: Option<nat>)
    requires Keyed(ids, v.components) && Resolves(v, ids, ends) && i < |ids|
    requires holes < |design.sketches| && extrudeDistPerSketch == PerSketch(s.extrudeDist)
    modifies design
    ensures design.Snapshot() == WithPart(old(design.Snapshot()), PartOf(ends, i), Outlines(ends, s)[i], holes, s)
    ensures added == if PartOf(ends, i) == [] then None else Some(|old(design.sketches)|)
  {
    var r := JointEnds(v, v.components[ids[i]]);
    if r.None? {
      return None;
    }
    var (ptStart, ptEnd) := r.value;
    assert PartOf(ends, i) == [Part(i, ptStart, ptEnd)];
    var offset := i as real * extrudeDistPerSketch;
    assert offset == PlaneOffset(i, s.extrudeDist);
    ghost var st := design.Snapshot();
    var sketchPlane := design.AddOffsetPlane(offset);
    var index := design.AddSketch(PartName(i), sketchPlane);
    DrawOutline(design, index, ptStart, ptEnd, s.halfWidth, s.trig);
    // the hole circles go to the shared holes sketch
    design.AddCurve(holes, Circle(ptStart, s.holeDiameter / 2.0));
    design.AddCurve(holes, Circle(ptEnd, s.holeDiameter / 2.0));
    PartCalls(st, Part(i, ptStart, ptEnd), holes, s);
    assert Outlines(ends, s)[i] == Outline(ptStart, ptEnd, s.halfWidth, s.trig);
    return Some(index);
  }

  /** A turn of the second loop, with the list of part sketches it extends. */
  method DrawNextPart(v: View, s: Settings, extrudeDistPerSketch: real, design: Design, ids: seq<string>,
                      ghost ends: Ends, ghost start: State, i: nat, holes: nat, partSketches: seq<nat>)
    returns (next: seq<nat>)
    requires Keyed(ids, v.components) && Resolves(v, ids, ends) && i < |ids|
    requires extrudeDistPerSketch == PerSketch(s.extrudeDist)
    requires design.Snapshot() == WithParts(start, ends, Outlines(ends, s), i, holes, s)
    requires partSketches == Consecutive(holes + 1, |Parts(ends, i)|)
    requires |design.sketches| == holes + 1 + |partSketches|
    modifies design
    ensures design.Snapshot() == WithParts(start, ends, Outlines(ends, s), i + 1, holes, s)
    ensures next == Consecutive(holes + 1, |Parts(ends, i + 1)|)
    ensures |design.sketches| == holes + 1 + |next|
  {
    var added := DrawPart(v, s, extrudeDistPerSketch, design, ids, ends, i, holes);
    next := partSketches;
    if added.Some? {
      next := next + [added.value];
      ConsecutiveNext(holes + 1, |partSketches|);
    }
  }

  /** The second pass: the "PartsHoles" sketch, then a plane and a sketch for each part. */
  method DrawParts(v: View, s: Settings, design: Design, ids: seq<string>, ghost ends: Ends)
    returns (holes: nat, partSketches: seq<nat>)
    requires Keyed(ids, v.components) && Resolves(v, ids, ends) && |ends| == |ids|
    modifies design
    ensures holes == |old(design.sketches)|
    ensures design.Snapshot() ==
      WithParts(WithSketch(old(design.Snapshot()), HolesSketch), ends, Outlines(ends, s), |ids|, holes, s)
    ensures partSketches == Consecutive(holes + 1, |Parts(ends, |ids|)|)
    ensures |design.sketches| == holes + 1 + |partSketches|
  {
    holes := design.AddSketch(HolesSketch.name, BasePlane);
    ghost var start, outlines := design.Snapshot(), Outlines(ends, s);
    var extrudeDistPerSketch := s.extrudeDist * 1.2;
    partSketches := [];
    for i := 0 to |ids|
      invariant design.Snapshot() == WithParts(start, ends, outlines, i, holes, s)
      invariant partSketches == Consecutive(holes + 1, |Parts(ends, i)|)
      invariant |design.sketches| == holes + 1 + |partSketches|
    {
      partSketches := DrawNextPart(v, s, extrudeDistPerSketch, design, ids, ends, start, i, holes, partSketches);
    }
  }

  /**
   * One extrude per profile of a sketch, in profile order. The loop re-reads
   * the profile count each turn; extrudes do not change a sketch's curves, so
   * the count stays what it was.
   */
  method ExtrudeProfiles(design: Design, sketch: nat, op: Operation, distance: real)
    requires sketch < |design.sketches|
    modifies design
    ensures design.Snapshot() == WithExtrusions(old(design.Snapshot()), sketch, old(design.Profiles(sketch)), op, distance)
  {
    ghost var start, count := design.Snapshot(), design.Profiles(sketch);
    var iProf := 0;
    while iProf < design.Profiles(sketch)
      invariant design.Snapshot() == WithExtrusions(start, sketch, iProf, op, distance)
      invariant design.Profiles(sketch) == count && iProf <= count
      decreases count - iProf
    {
      design.AddExtrusion(Extrusion(sketch, iProf, op, distance));
      iProf := iProf + 1;
      ghost var e := ExtrudeEntries(sketch, iProf - 1, op, distance);
      assert start.timeline + e + [ExtrudeEntry(Extrusion(sketch, iProf - 1, op, distance))] ==
             start.timeline + ExtrudeEntries(sketch, iProf, op, distance);
    }
  }

  /** A turn of the loop over the part sketches: the extrudes of every profile of sketch `partSketches[i]`. */
  method ExtrudeNextPart(design: Design, ghost start: State, partSketches: seq<nat>, i: nat, distance: real)
    requires i < |partSketches| && partSketches[i] < |design.sketches|
    requires design.Snapshot() == WithBodies(start, start, design.profileCount, partSketches, i, distance)
    modifies design
    ensures design.Snapshot() == WithBodies(start, start, design.profileCount, partSketches, i + 1, distance)
  {
    var sketchParts := partSketches[i];
    ghost var b := BodyEntries(start, design.profileCount, partSketches, i, distance);
    assert Curves(design.Snapshot(), sketchParts) == Curves(start, sketchParts);
    ExtrudeProfiles(design, sketchParts, NewBody, distance);
    ghost var e := ExtrudeEntries(sketchParts, design.profileCount(Curves(start, sketchParts)), NewBody, distance);
    assert start.timeline + b + e == start.timeline + BodyEntries(start, design.profileCount, partSketches, i + 1, distance);
  }

  /** The new bodies: every profile of every part sketch, extruded by `distance`. */
  method ExtrudeParts(design: Design, partSketches: seq<nat>, distance: real)
    requires forall k :: 0 <= k < |partSketches| ==> partSketches[k] < |design.sketches|
    modifies design
    ensures design.Snapshot() ==
      WithBodies(old(design.Snapshot()), old(design.Snapshot()), design.profileCount, partSketches, |partSketches|, distance)
  {
    ghost var start := design.Snapshot();
    for iSketchParts := 0 to |partSketches|
      invariant design.Snapshot() == WithBodies(start, start, design.profileCount, partSketches, iSketchParts, distance)
    {
      ExtrudeNextPart(design, start, partSketches, iSketchParts, distance);
    }
  }

  /** The timeline group around everything from entry `timelineStartIndex` on, when it spans two entries. */
  method GroupFeatures(design: Design, timelineStartIndex: nat)
    modifies design
    ensures design.Snapshot() == WithGroupFrom(old(design.Snapshot()), timelineStartIndex)
  {
    var timelineEndIndex := |design.timeline| - 1;
    if timelineEndIndex > timelineStartIndex {
      design.AddGroup(timelineStartIndex, timelineEndIndex);
    }
  }

  /** The extrudes, the cut and the group, once the part sketches `holes + 1 + k` are drawn. */
  method MakeFeatures(design: Design, holes: nat, partSketches: seq<nat>, extrudeDist: real)
    requires partSketches == Consecutive(holes + 1, |partSketches|)
    requires holes + |partSketches| < |design.sketches|
    modifies design
    ensures design.Snapshot() == WithFeatures(old(design.Snapshot()), holes, |partSketches|, extrudeDist, design.profileCount)
  {
    ghost var parts := design.Snapshot();
    var extrudeDistPerSketch := extrudeDist * 1.2;
    // the group starts at the first feature
    var timelineStartIndex := |design.timeline|;
    ExtrudeParts(design, partSketches, extrudeDist);
    var n := |partSketches|;
    var cutDistance := (n + 1) as real * extrudeDistPerSketch;
    assert cutDistance == CutDepth(n, extrudeDist);
    ExtrudeProfiles(design, holes, Cut, cutDistance);
    GroupFeatures(design, timelineStartIndex);
  }

  /** The dimensions the parts loop reads from the model. */
  function SettingsOf(m: ImportModel, trig: Trig): Settings
    reads m
  {
    Settings(m.componentWidth / 2.0, m.jointHoleDiameter, m.extrudeDist, trig)
  }

  /** Both passes over the member keys `ids`, and, when extruding, the features that follow. */
  method DrawMembers(v: View, s: Settings, design: Design, ids: seq<string>, ghost ends: Ends, doExtrude: bool)
    requires Keyed(ids, v.components) && Resolves(v, ids, ends) && |ends| == |ids|
    modifies design
    ensures design.Snapshot() == WithDrawing(old(design.Snapshot()), ends, s, doExtrude, design.profileCount)
  {
    var instructions := DrawInstructions(v, design, ids, ends);
    if doExtrude {
      var holes, partSketches := DrawParts(v, s, design, ids, ends);
      MakeFeatures(design, holes, partSketches, s.extrudeDist);
    }
  }

  /**
   * `generateDrawing`: the member keys, then the drawing. The model comes from
   * a successful parse, so every member whose joints exist has their origins.
   */
  method GenerateDrawing(m: ImportModel, design: Design, doExtrude: bool, trig: Trig) returns (ids: seq<string>)
    requires m.Resolvable()
    modifies design
    ensures Enumerates(ids, m.components)
    ensures design.Snapshot() ==
      WithDrawing(old(design.Snapshot()), Resolve(ViewOf(m), ids), SettingsOf(m, trig), doExtrude, design.profileCount)
  {
    var v := ViewOf(m);
    ids := TableKeys(m.components);
    ResolveResolves(v, ids);
    DrawMembers(v, SettingsOf(m, trig), design, ids, Resolve(v, ids), doExtrude);
  }

  /**
   * `onCommandExecuted`: the validated inputs are written to the model, and,
   * when all pass, the drawing is generated with the dialog's extrude choice.
   * Otherwise nothing is drawn, but the values that passed before the first
   * failing check stay written.
   */
  method OnCommandExecuted(m: ImportModel, design: Design, inputs: Parameters.CommandInputs, trig: Trig)
    returns (verdict: Parameters.Verdict, ids: seq<string>)
    requires m.Resolvable()
    modifies m`scale, m`componentWidth, m`extrudeHeight, m`jointHoleDiameter, design
    ensures verdict == Parameters.Validate(inputs)
    ensures m.scale == if Parameters.Written(verdict) >= 1 then inputs.scale.value else old(m.scale)
    ensures m.componentWidth ==
      if Parameters.Written(verdict) >= 2 then inputs.componentWidth.value else old(m.componentWidth)
    ensures m.extrudeHeight ==
      if Parameters.Written(verdict) >= 3 then Some(inputs.extrudeHeight.value) else old(m.extrudeHeight)
    ensures m.jointHoleDiameter ==
      if Parameters.Written(verdict) >= 4 then inputs.jointHoleDiameter.value else old(m.jointHoleDiameter)
    ensures m.extrudeDist == old(m.extrudeDist)
    ensures !verdict.Accepted? ==> design.Snapshot() == old(design.Snapshot())
    ensures verdict.Accepted? ==>
      && Enumerates(ids, m.components)
      && design.Snapshot() == WithDrawing(old(design.Snapshot()), Resolve(ViewOf(m), ids), SettingsOf(m, trig),
                                          verdict.doExtrude, design.profileCount)
  {
    verdict := Parameters.ApplyParameters(m, inputs);
    if !verdict.Accepted? {
      return verdict, [];
    }
    ids := GenerateDrawing(m, design, verdict.doExtrude, trig);
  }
}
