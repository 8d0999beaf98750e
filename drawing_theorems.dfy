/**
 * What `generateDrawing` leaves in the design, stated over the members that
 * resolve (the parts, in key order) rather than over the loops that draw
 * them.
 */
module DrawingTheorems {
  import opened Wrappers
  import opened Layout
  import opened Engine
  import opened Drawing
  import opened DrawingFacts
  import opened FeatureFacts

  // ----- the drawing, part by part -----------------------------------------------------

  /** One instruction line per part, joining its two joints. */
  function PartLines(ps: seq<Part>): seq<Curve> {
    seq(|ps|, k requires 0 <= k < |ps| => Line(ps[k].start, ps[k].end))
  }

  /** Two hole circles per part: at its start joint, then at its end joint. */
  function PartCircles(ps: seq<Part>, diameter: real): seq<Curve> {
    seq(2 * |ps|, i requires 0 <= i < 2 * |ps| =>
      Circle(if i % 2 == 0 then ps[i / 2].start else ps[i / 2].end, diameter / 2.0))
  }

  /** One plane per part, offset by the part's position in the key list. */
  function PartPlanes(ps: seq<Part>, extrudeDist: real): seq<real> {
    seq(|ps|, k requires 0 <= k < |ps| => PlaneOffset(ps[k].position, extrudeDist))
  }

  /** One sketch per part, on the `k`-th new plane, named after the part's position. */
  function PartSketches(ps: seq<Part>, firstPlane: nat): seq<Sketch> {
    seq(|ps|, k requires 0 <= k < |ps| => Sketch(PartName(ps[k].position), OffsetPlane(firstPlane + k)))
  }

  /** The outline of each part. */
  function PartOutlines(ps: seq<Part>, s: Settings): seq<seq<Curve>> {
    seq(|ps|, k requires 0 <= k < |ps| => Outline(ps[k].start, ps[k].end, s.halfWidth, s.trig))
  }

  /** Per part, the timeline entry of its plane and then that of its sketch. */
  function PartEntries(ps: seq<Part>, extrudeDist: real, firstPlane: nat): seq<Entry> {
    seq(2 * |ps|, i requires 0 <= i < 2 * |ps| =>
      if i % 2 == 0 then PlaneEntry(PlaneOffset(ps[i / 2].position, extrudeDist))
      else SketchEntry(Sketch(PartName(ps[i / 2].position), OffsetPlane(firstPlane + i / 2))))
  }

  lemma {:induction false} LinesAsParts(ends: Ends, n: nat)
    requires n <= |ends|
    ensures LinesDrawn(ends, n) == PartLines(Parts(ends, n))
  {
    var ps := Parts(ends, n);
    LinesDrawnLength(ends, n);
    forall k | 0 <= k < |ps| ensures LinesDrawn(ends, n)[k] == PartLines(ps)[k] {
      LinesDrawnAt(ends, n, k);
    }
  }

  lemma {:induction false} CirclesAsParts(ends: Ends, n: nat, diameter: real)
    requires n <= |ends|
    ensures HolesDrawn(ends, n, diameter) == PartCircles(Parts(ends, n), diameter)
  {
    var ps := Parts(ends, n);
    HolesDrawnLength(ends, n, diameter);
    forall i | 0 <= i < 2 * |ps| ensures HolesDrawn(ends, n, diameter)[i] == PartCircles(ps, diameter)[i] {
      var k := i / 2;
      HolesDrawnAt(ends, n, diameter, k);
      assert i == 2 * k || i == 2 * k + 1;
    }
  }

  lemma {:induction false} PlanesAsParts(ends: Ends, n: nat, extrudeDist: real)
    requires n <= |ends|
    ensures PlanesMade(ends, n, extrudeDist) == PartPlanes(Parts(ends, n), extrudeDist)
  {
    var ps := Parts(ends, n);
    PlanesMadeLength(ends, n, extrudeDist);
    forall k | 0 <= k < |ps| ensures PlanesMade(ends, n, extrudeDist)[k] == PartPlanes(ps, extrudeDist)[k] {
      PlanesMadeAt(ends, n, extrudeDist, k);
    }
  }

  lemma {:induction false} SketchesAsParts(ends: Ends, n: nat, firstPlane: nat)
    requires n <= |ends|
    ensures SketchesMade(ends, n, firstPlane) == PartSketches(Parts(ends, n), firstPlane)
  {
    var ps := Parts(ends, n);
    SketchesMadeLength(ends, n, firstPlane);
    forall k | 0 <= k < |ps| ensures SketchesMade(ends, n, firstPlane)[k] == PartSketches(ps, firstPlane)[k] {
      SketchesMadeAt(ends, n, firstPlane, k);
    }
  }

  lemma {:induction false} EntriesAsParts(ends: Ends, n: nat, extrudeDist: real, firstPlane: nat)
    requires n <= |ends|
    ensures EntriesMade(ends, n, extrudeDist, firstPlane) == PartEntries(Parts(ends, n), extrudeDist, firstPlane)
  {
    var ps := Parts(ends, n);
    EntriesMadeLength(ends, n, extrudeDist, firstPlane);
    forall i | 0 <= i < 2 * |ps|
      ensures EntriesMade(ends, n, extrudeDist, firstPlane)[i] == PartEntries(ps, extrudeDist, firstPlane)[i]
    {
      var k := i / 2;
      EntriesMadeAt(ends, n, extrudeDist, firstPlane, k);
      assert i == 2 * k || i == 2 * k + 1;
    }
  }

  /** The outline drawn for the member at a part's position is that part's outline. */
  lemma OutlineOfPart(ends: Ends, s: Settings, k: nat)
    requires k < |Parts(ends, |ends|)|
    ensures var p := Parts(ends, |ends|)[k];
      p.position < |ends| && Outlines(ends, s)[p.position] == PartOutlines(Parts(ends, |ends|), s)[k]
  {
    PartsAreResolvedMembers(ends, |ends|);
  }

  lemma AfterNothing<T>(a: seq<T>, b: seq<T>)
    requires a == []
    ensures a + b == b
  {
  }

  // ----- the stages of the drawing ---------------------------------------------------------

  /** The design after the first pass. */
  function Lined(st: State, ends: Ends): State {
    WithInstructions(WithSketch(st, InstructionsSketch), ends, |ends|, |st.sketches|)
  }

  /** The design after the holes sketch is added. */
  function Holed(st: State, ends: Ends): State {
    WithSketch(Lined(st, ends), HolesSketch)
  }

  /** The design after the second pass. */
  function Parted(st: State, ends: Ends, s: Settings): State {
    WithParts(Holed(st, ends), ends, Outlines(ends, s), |ends|, |st.sketches| + 1, s)
  }

  lemma DrawingStages(st: State, ends: Ends, s: Settings, profileCount: seq<Curve> -> nat)
    ensures WithDrawing(st, ends, s, true, profileCount) ==
            WithFeatures(Parted(st, ends, s), |st.sketches| + 1, |Parts(ends, |ends|)|, s.extrudeDist, profileCount)
  {
  }

  /** Extruding, the features leave the curves as the second pass left them. */
  lemma DrawnCurves(st: State, ends: Ends, s: Settings, profileCount: seq<Curve> -> nat)
    ensures WithDrawing(st, ends, s, true, profileCount).curves == Parted(st, ends, s).curves
  {
    DrawingStages(st, ends, s, profileCount);
    FeaturesKeepDrawing(Parted(st, ends, s), |st.sketches| + 1, |Parts(ends, |ends|)|, s.extrudeDist, profileCount);
  }

  /** Besides curves, the first pass adds the instructions sketch only. */
  lemma HoledShape(st: State, ends: Ends)
    ensures Holed(st, ends).(curves := st.curves) == WithSketch(WithSketch(st, InstructionsSketch), HolesSketch)
  {
    InstructionsOnlyDraw(WithSketch(st, InstructionsSketch), ends, |ends|, |st.sketches|);
  }

  /** In a consistent design the instructions sketch ends up with exactly the part lines. */
  lemma LinedInstructions(st: State, ends: Ends)
    requires Consistent(st)
    ensures Curves(Lined(st, ends), |st.sketches|) == PartLines(Parts(ends, |ends|))
  {
    var w, i := WithSketch(st, InstructionsSketch), |st.sketches|;
    assert i !in w.curves;
    InstructionsDrawn(w, ends, |ends|, i);
    AfterNothing(Curves(w, i), LinesDrawn(ends, |ends|));
    LinesAsParts(ends, |ends|);
  }

  /** The first pass puts no curve on a sketch index it did not draw on. */
  lemma LinedKeeps(st: State, ends: Ends, x: nat)
    requires x != |st.sketches|
    ensures Curves(Holed(st, ends), x) == Curves(st, x)
  {
    InstructionsKeepOthers(WithSketch(st, InstructionsSketch), ends, |ends|, |st.sketches|, x);
  }

  /** The holes sketch ends up with exactly the part circles. */
  lemma PartedHoles(st: State, ends: Ends, s: Settings)
    requires Consistent(st)
    ensures Curves(Parted(st, ends, s), |st.sketches| + 1) == PartCircles(Parts(ends, |ends|), s.holeDiameter)
  {
    var h := Holed(st, ends);
    HoledShape(st, ends);
    LinedKeeps(st, ends, |st.sketches| + 1);
    PassHoles(h, ends, Outlines(ends, s), |ends|, |st.sketches| + 1, s);
    AfterNothing(Curves(h, |st.sketches| + 1), HolesDrawn(ends, |ends|, s.holeDiameter));
    CirclesAsParts(ends, |ends|, s.holeDiameter);
  }

  /** The `k`-th part sketch ends up with exactly the outline drawn for the `k`-th part. */
  lemma PartedOutlineOf(st: State, ends: Ends, outlines: seq<seq<Curve>>, s: Settings, k: nat)
    requires Consistent(st) && |outlines| == |ends| && k < |Parts(ends, |ends|)|
    ensures var p := Parts(ends, |ends|)[k];
      p.position < |ends| &&
      Curves(WithParts(Holed(st, ends), ends, outlines, |ends|, |st.sketches| + 1, s), |st.sketches| + 2 + k) ==
      outlines[p.position]
  {
    var h, x := Holed(st, ends), |st.sketches| + 2 + k;
    HoledShape(st, ends);
    assert |h.sketches| == |st.sketches| + 2;
    LinedKeeps(st, ends, x);
    assert x !in st.curves;
    PassOutlines(h, ends, outlines, |ends|, |st.sketches| + 1, s, k);
    var p := Parts(ends, |ends|)[k];
    AfterNothing(Curves(h, x), outlines[p.position]);
  }

  lemma PartedOutline(st: State, ends: Ends, s: Settings, k: nat)
    requires Consistent(st) && k < |Parts(ends, |ends|)|
    ensures var p := Parts(ends, |ends|)[k];
      p.position < |ends| && Curves(Parted(st, ends, s), |st.sketches| + 2 + k) == Outlines(ends, s)[p.position]
  {
    PartedOutlineOf(st, ends, Outlines(ends, s), s, k);
  }

  /** The second pass leaves the instructions sketch as the first pass left it. */
  lemma PartedInstructions(st: State, ends: Ends, s: Settings)
    ensures Curves(Parted(st, ends, s), |st.sketches|) == Curves(Lined(st, ends), |st.sketches|)
  {
    HoledShape(st, ends);
    PassKeepsEarlier(Holed(st, ends), ends, Outlines(ends, s), |ends|, |st.sketches| + 1, s, |st.sketches|);
  }

  /** The second pass leaves the sketches that were there before the drawing alone. */
  lemma PartedKeepsEarlier(st: State, ends: Ends, s: Settings, x: nat)
    requires x < |st.sketches|
    ensures Curves(Parted(st, ends, s), x) == Curves(st, x)
  {
    HoledShape(st, ends);
    LinedKeeps(st, ends, x);
    PassKeepsEarlier(Holed(st, ends), ends, Outlines(ends, s), |ends|, |st.sketches| + 1, s, x);
  }

  lemma PartedSketches(st: State, ends: Ends, s: Settings)
    ensures Parted(st, ends, s).sketches ==
            st.sketches + [InstructionsSketch, HolesSketch] + PartSketches(Parts(ends, |ends|), |st.planes|)
  {
    var h := Holed(st, ends);
    HoledShape(st, ends);
    assert h.sketches == st.sketches + [InstructionsSketch, HolesSketch];
    assert h.planes == st.planes;
    PassSketches(h, ends, Outlines(ends, s), |ends|, |st.sketches| + 1, s);
    SketchesAsParts(ends, |ends|, |st.planes|);
  }

  /** The first pass puts curves on the instructions sketch and on no new sketch index. */
  lemma LinedCurveKey(st: State, ends: Ends, x: nat)
    requires Consistent(st) && x in Holed(st, ends).curves
    ensures x <= |st.sketches|
  {
    InstructionsCurveKeys(WithSketch(st, InstructionsSketch), ends, |ends|, |st.sketches|, x);
  }

  /** After the second pass, the sketches with curves are among the ones that exist. */
  lemma PartedCurveKey(st: State, ends: Ends, s: Settings, x: nat)
    requires Consistent(st) && x in Parted(st, ends, s).curves
    ensures x < |Parted(st, ends, s).sketches|
  {
    var h := Holed(st, ends);
    HoledShape(st, ends);
    assert |h.sketches| == |st.sketches| + 2;
    PassSketchCount(h, ends, Outlines(ends, s), |ends|, |st.sketches| + 1, s);
    PassCurveKeys(h, ends, Outlines(ends, s), |ends|, |st.sketches| + 1, s, x);
    if x in h.curves {
      LinedCurveKey(st, ends, x);
    }
  }

  lemma PartedPlanes(st: State, ends: Ends, s: Settings)
    ensures Parted(st, ends, s).planes == st.planes + PartPlanes(Parts(ends, |ends|), s.extrudeDist)
  {
    HoledShape(st, ends);
    PassPlanes(Holed(st, ends), ends, Outlines(ends, s), |ends|, |st.sketches| + 1, s);
    PlanesAsParts(ends, |ends|, s.extrudeDist);
  }

  lemma PartedTimeline(st: State, ends: Ends, s: Settings)
    ensures Parted(st, ends, s).timeline ==
            st.timeline + [SketchEntry(InstructionsSketch), SketchEntry(HolesSketch)] +
            PartEntries(Parts(ends, |ends|), s.extrudeDist, |st.planes|)
  {
    HoledShape(st, ends);
    PassTimeline(Holed(st, ends), ends, Outlines(ends, s), |ends|, |st.sketches| + 1, s);
    EntriesAsParts(ends, |ends|, s.extrudeDist, |st.planes|);
    assert st.timeline + [SketchEntry(InstructionsSketch)] + [SketchEntry(HolesSketch)] ==
           st.timeline + [SketchEntry(InstructionsSketch), SketchEntry(HolesSketch)];
  }

  lemma PartedGroups(st: State, ends: Ends, s: Settings)
    ensures Parted(st, ends, s).groups == st.groups
  {
    HoledShape(st, ends);
    PassGroups(Holed(st, ends), ends, Outlines(ends, s), |ends|, |st.sketches| + 1, s);
  }

  // ----- what generateDrawing leaves ---------------------------------------------------------

  /** Without extruding, the drawing is the instructions sketch and its curves, and nothing else. */
  lemma DrawingWithoutExtrude(st: State, ends: Ends, s: Settings, profileCount: seq<Curve> -> nat)
    ensures WithDrawing(st, ends, s, false, profileCount).(curves := st.curves) == WithSketch(st, InstructionsSketch)
  {
    InstructionsOnlyDraw(WithSketch(st, InstructionsSketch), ends, |ends|, |st.sketches|);
  }

  /** The instructions sketch holds one line per part, in key order, and nothing else. */
  lemma DrawingInstructionLines(st: State, ends: Ends, s: Settings, doExtrude: bool, profileCount: seq<Curve> -> nat)
    requires Consistent(st)
    ensures Curves(WithDrawing(st, ends, s, doExtrude, profileCount), |st.sketches|) == PartLines(Parts(ends, |ends|))
  {
    LinedInstructions(st, ends);
    if doExtrude {
      DrawnCurves(st, ends, s, profileCount);
      PartedInstructions(st, ends, s);
    }
  }

  /** No sketch that was already in the design gains a curve. */
  lemma DrawingKeepsEarlier(st: State, ends: Ends, s: Settings, doExtrude: bool, profileCount: seq<Curve> -> nat, x: nat)
    requires x < |st.sketches|
    ensures Curves(WithDrawing(st, ends, s, doExtrude, profileCount), x) == Curves(st, x)
  {
    if doExtrude {
      DrawnCurves(st, ends, s, profileCount);
      PartedKeepsEarlier(st, ends, s, x);
    } else {
      InstructionsKeepOthers(WithSketch(st, InstructionsSketch), ends, |ends|, |st.sketches|, x);
    }
  }

  /**
   * Extruding, the new sketches are the instructions sketch, the holes sketch
   * and one sketch per part, on consecutive new planes, named after the part's
   * position.
   */
  lemma DrawingSketches(st: State, ends: Ends, s: Settings, profileCount: seq<Curve> -> nat)
    ensures WithDrawing(st, ends, s, true, profileCount).sketches ==
            st.sketches + [InstructionsSketch, HolesSketch] + PartSketches(Parts(ends, |ends|), |st.planes|)
  {
    DrawingStages(st, ends, s, profileCount);
    PartedSketches(st, ends, s);
    FeaturesKeepDrawing(Parted(st, ends, s), |st.sketches| + 1, |Parts(ends, |ends|)|, s.extrudeDist, profileCount);
  }

  /** Extruding, the new planes are one per part, offset by its position times the spacing. */
  lemma DrawingPlanes(st: State, ends: Ends, s: Settings, profileCount: seq<Curve> -> nat)
    ensures WithDrawing(st, ends, s, true, profileCount).planes == st.planes + PartPlanes(Parts(ends, |ends|), s.extrudeDist)
  {
    DrawingStages(st, ends, s, profileCount);
    PartedPlanes(st, ends, s);
    FeaturesKeepDrawing(Parted(st, ends, s), |st.sketches| + 1, |Parts(ends, |ends|)|, s.extrudeDist, profileCount);
  }

  /** Extruding, the holes sketch holds the two circles of each part, in key order, and nothing else. */
  lemma DrawingHoleCircles(st: State, ends: Ends, s: Settings, profileCount: seq<Curve> -> nat)
    requires Consistent(st)
    ensures Curves(WithDrawing(st, ends, s, true, profileCount), |st.sketches| + 1) ==
            PartCircles(Parts(ends, |ends|), s.holeDiameter)
  {
    DrawnCurves(st, ends, s, profileCount);
    PartedHoles(st, ends, s);
  }

  /** Extruding, the sketch of the `k`-th part holds that part's outline and nothing else. */
  lemma DrawingOutlines(st: State, ends: Ends, s: Settings, profileCount: seq<Curve> -> nat, k: nat)
    requires Consistent(st) && k < |Parts(ends, |ends|)|
    ensures Curves(WithDrawing(st, ends, s, true, profileCount), |st.sketches| + 2 + k) ==
            PartOutlines(Parts(ends, |ends|), s)[k]
  {
    DrawnCurves(st, ends, s, profileCount);
    PartedOutline(st, ends, s, k);
    OutlineOfPart(ends, s, k);
  }

  /**
   * Extruding, the timeline gains: the two base sketches; each part's plane
   * and sketch; a new-body extrude of every profile of every part outline,
   * part by part; and a cut of every profile the hole circles make, as deep
   * as the number of parts calls for.
   */
  lemma DrawingTimeline(st: State, ends: Ends, s: Settings, profileCount: seq<Curve> -> nat)
    requires Consistent(st)
    ensures var ps := Parts(ends, |ends|);
      WithDrawing(st, ends, s, true, profileCount).timeline ==
        st.timeline + [SketchEntry(InstructionsSketch), SketchEntry(HolesSketch)] +
        PartEntries(ps, s.extrudeDist, |st.planes|) +
        BodiesFor(PartOutlines(ps, s), |st.sketches| + 2, |ps|, profileCount, s.extrudeDist) +
        ExtrudeEntries(|st.sketches| + 1, profileCount(PartCircles(ps, s.holeDiameter)), Cut, CutDepth(|ps|, s.extrudeDist))
  {
    var ps := Parts(ends, |ends|);
    var parted := Parted(st, ends, s);
    var outlines := PartOutlines(ps, s);
    DrawingStages(st, ends, s, profileCount);
    FeaturesTimeline(parted, |st.sketches| + 1, |ps|, s.extrudeDist, profileCount);
    forall k | 0 <= k < |outlines| ensures Curves(parted, |st.sketches| + 2 + k) == outlines[k] {
      PartedOutline(st, ends, s, k);
      OutlineOfPart(ends, s, k);
    }
    BodyEntriesFor(parted, profileCount, outlines, |st.sketches| + 2, |ps|, s.extrudeDist);
    PartedHoles(st, ends, s);
    PartedTimeline(st, ends, s);
  }

  /** Extruding, with at least two features, one group spans exactly the features. */
  lemma DrawingGrouped(st: State, ends: Ends, s: Settings, profileCount: seq<Curve> -> nat)
    requires var first := |st.timeline| + 2 + 2 * |Parts(ends, |ends|)|;
      |WithDrawing(st, ends, s, true, profileCount).timeline| >= first + 2
    ensures var first, r := |st.timeline| + 2 + 2 * |Parts(ends, |ends|)|, WithDrawing(st, ends, s, true, profileCount);
      r.groups == st.groups + [Group(first, |r.timeline| - 1)]
  {
    var parted := Parted(st, ends, s);
    DrawingStages(st, ends, s, profileCount);
    PartedTimeline(st, ends, s);
    PartedGroups(st, ends, s);
    FeaturesGrouped(parted, |st.sketches| + 1, |Parts(ends, |ends|)|, s.extrudeDist, profileCount);
  }

  /** Extruding, with fewer than two features, no group is made. */
  lemma DrawingUngrouped(st: State, ends: Ends, s: Settings, profileCount: seq<Curve> -> nat)
    requires var first := |st.timeline| + 2 + 2 * |Parts(ends, |ends|)|;
      |WithDrawing(st, ends, s, true, profileCount).timeline| < first + 2
    ensures WithDrawing(st, ends, s, true, profileCount).groups == st.groups
  {
    var parted := Parted(st, ends, s);
    DrawingStages(st, ends, s, profileCount);
    PartedTimeline(st, ends, s);
    PartedGroups(st, ends, s);
    FeaturesUngrouped(parted, |st.sketches| + 1, |Parts(ends, |ends|)|, s.extrudeDist, profileCount);
  }

  /** The drawing keeps a design consistent: curves only ever go to sketches that exist. */
  lemma DrawingConsistent(st: State, ends: Ends, s: Settings, doExtrude: bool, profileCount: seq<Curve> -> nat)
    requires Consistent(st)
    ensures Consistent(WithDrawing(st, ends, s, doExtrude, profileCount))
  {
    var r := WithDrawing(st, ends, s, doExtrude, profileCount);
    if doExtrude {
      var parted := Parted(st, ends, s);
      DrawingStages(st, ends, s, profileCount);
      FeaturesKeepDrawing(parted, |st.sketches| + 1, |Parts(ends, |ends|)|, s.extrudeDist, profileCount);
      forall x | x in r.curves ensures x < |r.sketches| {
        PartedCurveKey(st, ends, s, x);
      }
    } else {
      InstructionsOnlyDraw(WithSketch(st, InstructionsSketch), ends, |ends|, |st.sketches|);
      assert |r.sketches| == |st.sketches| + 1;
      forall x | x in r.curves ensures x < |r.sketches| {
        InstructionsCurveKeys(WithSketch(st, InstructionsSketch), ends, |ends|, |st.sketches|, x);
      }
    }
  }

  // ----- sketch names ------------------------------------------------------------------------

  /** Members at different positions give their sketches different names. */
  lemma PartNamesDistinct(p: nat, q: nat)
    requires p != q
    ensures NameText(PartName(p)) != NameText(PartName(q))
  {
    if NameText(PartName(p)) == NameText(PartName(q)) {
      var n := |PartPrefix|;
      assert NameText(PartName(p))[n..] == Decimal(p);
      assert NameText(PartName(q))[n..] == Decimal(q);
      DecimalInjective(p, q);
    }
  }

  /** No part sketch is named like the instructions sketch or the holes sketch. */
  lemma PartNameNotBase(p: nat)
    ensures NameText(PartName(p)) != NameText(InstructionsSketch.name) &&
            NameText(PartName(p)) != NameText(HolesSketch.name)
  {
    var t := NameText(PartName(p));
    assert t[0] == 'P' && t[4] == ' ';
  }

  /** The sketches the drawing adds all have different names. */
  lemma DrawingSketchNamesDistinct(st: State, ends: Ends, s: Settings, profileCount: seq<Curve> -> nat, i: nat, j: nat)
    requires var added := |WithDrawing(st, ends, s, true, profileCount).sketches| - |st.sketches|;
      i < j < added
    ensures var sk := WithDrawing(st, ends, s, true, profileCount).sketches;
      NameText(sk[|st.sketches| + i].name) != NameText(sk[|st.sketches| + j].name)
  {
    var ps := Parts(ends, |ends|);
    var sk := WithDrawing(st, ends, s, true, profileCount).sketches;
    var part := PartSketches(ps, |st.planes|);
    DrawingSketches(st, ends, s, profileCount);
    assert sk == st.sketches + [InstructionsSketch, HolesSketch] + part;
    PartsInKeyOrder(ends, |ends|);
    if j >= 2 {
      assert sk[|st.sketches| + j] == part[j - 2];
      PartNameNotBase(ps[j - 2].position);
      if i >= 2 {
        assert sk[|st.sketches| + i] == part[i - 2];
        PartNamesDistinct(ps[i - 2].position, ps[j - 2].position);
      }
    }
  }

  // ----- how deep the hole cut goes ----------------------------------------------------------

  /**
   * The hole cut, whose depth counts the parts drawn, goes through the slab
   * of a part exactly when the part's key position is at most that count.
   */
  lemma DrawingCutReach(ends: Ends, extrudeDist: real, k: nat)
    requires extrudeDist > 0.0 && k < |Parts(ends, |ends|)|
    ensures var ps := Parts(ends, |ends|);
      PlaneOffset(ps[k].position, extrudeDist) + extrudeDist <= CutDepth(|ps|, extrudeDist) <==> ps[k].position <= |ps|
  {
    var ps := Parts(ends, |ends|);
    CutReachesSlab(ps[k].position, |ps|, extrudeDist);
  }

  /** When no member is skipped, the hole cut goes through every part. */
  lemma DrawingCutsEverySlab(ends: Ends, extrudeDist: real, k: nat)
    requires extrudeDist > 0.0 && (forall i :: 0 <= i < |ends| ==> ends[i].Some?)
    requires k < |Parts(ends, |ends|)|
    ensures var ps := Parts(ends, |ends|);
      PlaneOffset(ps[k].position, extrudeDist) + extrudeDist <= CutDepth(|ps|, extrudeDist)
  {
    PartsWithoutSkips(ends, |ends|);
    DrawingCutReach(ends, extrudeDist, k);
  }

  /**
   * Two skipped members before a drawn one: its plane sits at two spacings,
   * but the cut, counting one part, stops short of the top of its slab.
   */
  lemma SkippedMembersLeaveSlabUncut()
    ensures var ends: Ends := [None, None, Some((Vec(0.0, 0.0), Vec(1.0, 0.0)))];
      var ps := Parts(ends, |ends|);
      |ps| == 1 && ps[0].position == 2 &&
      PlaneOffset(ps[0].position, 1.0) + 1.0 > CutDepth(|ps|, 1.0)
  {
    var ends: Ends := [None, None, Some((Vec(0.0, 0.0), Vec(1.0, 0.0)))];
    assert Parts(ends, 2) == [];
    assert Parts(ends, 3) == [Part(2, Vec(0.0, 0.0), Vec(1.0, 0.0))];
    CutReachesSlab(2, 1, 1.0);
  }
}
