/**
 * What the two drawing passes add to the design: the planes, sketches,
 * curves and timeline entries, member by member.
 */
module DrawingFacts {
  import opened Wrappers
  import opened Layout
  import opened Engine
  import opened Drawing

  // ----- what the passes add, member by member -----------------------------------------
  //
  // `part` below is what `PartOf` gives for one member: its part, or nothing
  // when the member is skipped. The functions over `(ends, n)` follow the two
  // loops turn by turn.

  function LineOf(part: seq<Part>): seq<Curve> {
    if part == [] then [] else [Line(part[0].start, part[0].end)]
  }

  function HolesOf(part: seq<Part>, diameter: real): seq<Curve> {
    if part == [] then [] else [Circle(part[0].start, diameter / 2.0), Circle(part[0].end, diameter / 2.0)]
  }

  function PlaneOf(part: seq<Part>, extrudeDist: real): seq<real> {
    if part == [] then [] else [PlaneOffset(part[0].position, extrudeDist)]
  }

  function SketchOf(part: seq<Part>, plane: nat): seq<Sketch> {
    if part == [] then [] else [Sketch(PartName(part[0].position), OffsetPlane(plane))]
  }

  /** The timeline entries of a drawn member: its plane, then its sketch. */
  function EntriesOf(part: seq<Part>, extrudeDist: real, plane: nat): seq<Entry> {
    if part == [] then []
    else [PlaneEntry(PlaneOffset(part[0].position, extrudeDist)),
          SketchEntry(Sketch(PartName(part[0].position), OffsetPlane(plane)))]
  }

  /** The instruction lines of the first `n` members. */
  function LinesDrawn(ends: Ends, n: nat): seq<Curve>
    requires n <= |ends|
  {
    if n == 0 then [] else LinesDrawn(ends, n - 1) + LineOf(PartOf(ends, n - 1))
  }

  /** The hole circles of the first `n` members. */
  function HolesDrawn(ends: Ends, n: nat, diameter: real): seq<Curve>
    requires n <= |ends|
  {
    if n == 0 then [] else HolesDrawn(ends, n - 1, diameter) + HolesOf(PartOf(ends, n - 1), diameter)
  }

  /** The plane offsets of the first `n` members. */
  function PlanesMade(ends: Ends, n: nat, extrudeDist: real): seq<real>
    requires n <= |ends|
  {
    if n == 0 then [] else PlanesMade(ends, n - 1, extrudeDist) + PlaneOf(PartOf(ends, n - 1), extrudeDist)
  }

  /** The part sketches of the first `n` members, on consecutive planes from `firstPlane`. */
  function SketchesMade(ends: Ends, n: nat, firstPlane: nat): seq<Sketch>
    requires n <= |ends|
  {
    if n == 0 then []
    else SketchesMade(ends, n - 1, firstPlane) + SketchOf(PartOf(ends, n - 1), firstPlane + |Parts(ends, n - 1)|)
  }

  /** The timeline entries of the first `n` members, their planes numbered from `firstPlane`. */
  function EntriesMade(ends: Ends, n: nat, extrudeDist: real, firstPlane: nat): seq<Entry>
    requires n <= |ends|
  {
    if n == 0 then []
    else EntriesMade(ends, n - 1, extrudeDist, firstPlane) +
         EntriesOf(PartOf(ends, n - 1), extrudeDist, firstPlane + |Parts(ends, n - 1)|)
  }

  /** The `k`-th part of the first `n' members is the `k`-th of the first `n - 1`, or the last one. */
  lemma PartsStep(ends: Ends, n: nat, k: nat)
    requires 0 < n <= |ends| && k < |Parts(ends, n)|
    ensures Parts(ends, n)[k] == if k < |Parts(ends, n - 1)| then Parts(ends, n - 1)[k] else PartOf(ends, n - 1)[0]
  {
  }

  lemma {:induction false} LinesDrawnLength(ends: Ends, n: nat)
    requires n <= |ends|
    ensures |LinesDrawn(ends, n)| == |Parts(ends, n)|
  {
    if n > 0 {
      LinesDrawnLength(ends, n - 1);
    }
  }

  /** The `k`-th instruction line joins the ends of the `k`-th part. */
  lemma {:induction false} LinesDrawnAt(ends: Ends, n: nat, k: nat)
    requires n <= |ends| && k < |Parts(ends, n)|
    ensures k < |LinesDrawn(ends, n)| && LinesDrawn(ends, n)[k] == Line(Parts(ends, n)[k].start, Parts(ends, n)[k].end)
  {
    var m: nat := n - 1;
    var before, added := LinesDrawn(ends, m), LineOf(PartOf(ends, m));
    assert LinesDrawn(ends, n) == before + added;
    LinesDrawnLength(ends, m);
    PartsStep(ends, n, k);
    if k < |Parts(ends, m)| {
      LinesDrawnAt(ends, m, k);
    } else {
      assert k == |before| && |added| == 1;
    }
  }

  lemma {:induction false} HolesDrawnLength(ends: Ends, n: nat, diameter: real)
    requires n <= |ends|
    ensures |HolesDrawn(ends, n, diameter)| == 2 * |Parts(ends, n)|
  {
    if n > 0 {
      HolesDrawnLength(ends, n - 1, diameter);
    }
  }

  /** Circles `2k` and `2k + 1` are the holes at the start and at the end of the `k`-th part. */
  lemma {:induction false} HolesDrawnAt(ends: Ends, n: nat, diameter: real, k: nat)
    requires n <= |ends| && k < |Parts(ends, n)|
    ensures 2 * k + 1 < |HolesDrawn(ends, n, diameter)| &&
            HolesDrawn(ends, n, diameter)[2 * k] == Circle(Parts(ends, n)[k].start, diameter / 2.0) &&
            HolesDrawn(ends, n, diameter)[2 * k + 1] == Circle(Parts(ends, n)[k].end, diameter / 2.0)
  {
    var m: nat := n - 1;
    var before, added := HolesDrawn(ends, m, diameter), HolesOf(PartOf(ends, m), diameter);
    assert HolesDrawn(ends, n, diameter) == before + added;
    HolesDrawnLength(ends, m, diameter);
    PartsStep(ends, n, k);
    if k < |Parts(ends, m)| {
      HolesDrawnAt(ends, m, diameter, k);
    } else {
      assert 2 * k == |before| && |added| == 2;
    }
  }

  lemma {:induction false} PlanesMadeLength(ends: Ends, n: nat, extrudeDist: real)
    requires n <= |ends|
    ensures |PlanesMade(ends, n, extrudeDist)| == |Parts(ends, n)|
  {
    if n > 0 {
      PlanesMadeLength(ends, n - 1, extrudeDist);
    }
  }

  /** The `k`-th plane is at the offset of the `k`-th part's position. */
  lemma {:induction false} PlanesMadeAt(ends: Ends, n: nat, extrudeDist: real, k: nat)
    requires n <= |ends| && k < |Parts(ends, n)|
    ensures k < |PlanesMade(ends, n, extrudeDist)| &&
            PlanesMade(ends, n, extrudeDist)[k] == PlaneOffset(Parts(ends, n)[k].position, extrudeDist)
  {
    var m: nat := n - 1;
    var before, added := PlanesMade(ends, m, extrudeDist), PlaneOf(PartOf(ends, m), extrudeDist);
    assert PlanesMade(ends, n, extrudeDist) == before + added;
    PlanesMadeLength(ends, m, extrudeDist);
    PartsStep(ends, n, k);
    if k < |Parts(ends, m)| {
      PlanesMadeAt(ends, m, extrudeDist, k);
    } else {
      assert k == |before| && |added| == 1;
    }
  }

  lemma {:induction false} SketchesMadeLength(ends: Ends, n: nat, firstPlane: nat)
    requires n <= |ends|
    ensures |SketchesMade(ends, n, firstPlane)| == |Parts(ends, n)|
  {
    if n > 0 {
      SketchesMadeLength(ends, n - 1, firstPlane);
    }
  }

  /** The `k`-th part sketch is on plane `firstPlane + k` and named after the `k`-th part's position. */
  lemma {:induction false} SketchesMadeAt(ends: Ends, n: nat, firstPlane: nat, k: nat)
    requires n <= |ends| && k < |Parts(ends, n)|
    ensures k < |SketchesMade(ends, n, firstPlane)| &&
            SketchesMade(ends, n, firstPlane)[k] == Sketch(PartName(Parts(ends, n)[k].position), OffsetPlane(firstPlane + k))
  {
    var m: nat := n - 1;
    var before, added := SketchesMade(ends, m, firstPlane), SketchOf(PartOf(ends, m), firstPlane + |Parts(ends, m)|);
    assert SketchesMade(ends, n, firstPlane) == before + added;
    SketchesMadeLength(ends, m, firstPlane);
    PartsStep(ends, n, k);
    if k < |Parts(ends, m)| {
      SketchesMadeAt(ends, m, firstPlane, k);
    } else {
      assert k == |before| && |added| == 1;
    }
  }

  lemma AppendAssociative<T>(a: seq<T>, b: seq<T>, c: seq<T>)
    ensures (a + b) + c == a + (b + c)
  {
  }

  lemma {:induction false} EntriesMadeLength(ends: Ends, n: nat, extrudeDist: real, firstPlane: nat)
    requires n <= |ends|
    ensures |EntriesMade(ends, n, extrudeDist, firstPlane)| == 2 * |Parts(ends, n)|
  {
    if n > 0 {
      EntriesMadeLength(ends, n - 1, extrudeDist, firstPlane);
    }
  }

  /** Entries `2k` and `2k + 1` are the plane and then the sketch of the `k`-th part. */
  lemma {:induction false} EntriesMadeAt(ends: Ends, n: nat, extrudeDist: real, firstPlane: nat, k: nat)
    requires n <= |ends| && k < |Parts(ends, n)|
    ensures var es, p := EntriesMade(ends, n, extrudeDist, firstPlane), Parts(ends, n)[k];
            2 * k + 1 < |es| &&
            es[2 * k] == PlaneEntry(PlaneOffset(p.position, extrudeDist)) &&
            es[2 * k + 1] == SketchEntry(Sketch(PartName(p.position), OffsetPlane(firstPlane + k)))
  {
    var m: nat := n - 1;
    var before := EntriesMade(ends, m, extrudeDist, firstPlane);
    var added := EntriesOf(PartOf(ends, m), extrudeDist, firstPlane + |Parts(ends, m)|);
    assert EntriesMade(ends, n, extrudeDist, firstPlane) == before + added;
    EntriesMadeLength(ends, m, extrudeDist, firstPlane);
    PartsStep(ends, n, k);
    if k < |Parts(ends, m)| {
      EntriesMadeAt(ends, m, extrudeDist, firstPlane, k);
    } else {
      assert 2 * k == |before| && |added| == 2;
    }
  }

  // ----- the instructions pass -------------------------------------------------------

  /** The first pass adds one line per part, in key order, to the instructions sketch. */
  lemma {:induction false} InstructionsDrawn(st: State, ends: Ends, n: nat, sketch: nat)
    requires n <= |ends|
    ensures Curves(WithInstructions(st, ends, n, sketch), sketch) == Curves(st, sketch) + LinesDrawn(ends, n)
  {
    if n > 0 {
      var m: nat := n - 1;
      InstructionsDrawn(st, ends, m, sketch);
      AppendAssociative(Curves(st, sketch), LinesDrawn(ends, m), LineOf(PartOf(ends, m)));
    }
  }

  /** The first pass adds no curve to any other sketch. */
  lemma {:induction false} InstructionsKeepOthers(st: State, ends: Ends, n: nat, sketch: nat, x: nat)
    requires n <= |ends| && x != sketch
    ensures Curves(WithInstructions(st, ends, n, sketch), x) == Curves(st, x)
  {
    if n > 0 {
      InstructionsKeepOthers(st, ends, n - 1, sketch, x);
    }
  }

  /** The first pass changes nothing but curves. */
  lemma {:induction false} InstructionsOnlyDraw(st: State, ends: Ends, n: nat, sketch: nat)
    requires n <= |ends|
    ensures WithInstructions(st, ends, n, sketch).(curves := st.curves) == st
  {
    if n > 0 {
      InstructionsOnlyDraw(st, ends, n - 1, sketch);
    }
  }

  /** The first pass adds curves to no sketch but its own. */
  lemma {:induction false} InstructionsCurveKeys(st: State, ends: Ends, n: nat, sketch: nat, x: nat)
    requires n <= |ends| && x in WithInstructions(st, ends, n, sketch).curves
    ensures x in st.curves || x == sketch
  {
    if n > 0 && x != sketch {
      InstructionsCurveKeys(st, ends, n - 1, sketch, x);
    }
  }

  // ----- the parts pass ----------------------------------------------------------------

  /** The parts pass makes one plane per part, at the offset of the member's position. */
  lemma {:induction false} PassPlanes(st: State, ends: Ends, outlines: seq<seq<Curve>>, n: nat, holes: nat, s: Settings)
    requires n <= |ends| == |outlines|
    ensures WithParts(st, ends, outlines, n, holes, s).planes == st.planes + PlanesMade(ends, n, s.extrudeDist)
  {
    if n > 0 {
      var m: nat := n - 1;
      PassPlanes(st, ends, outlines, m, holes, s);
      AppendAssociative(st.planes, PlanesMade(ends, m, s.extrudeDist), PlaneOf(PartOf(ends, m), s.extrudeDist));
    }
  }

  lemma {:induction false} PassPlaneCount(st: State, ends: Ends, outlines: seq<seq<Curve>>, n: nat, holes: nat, s: Settings)
    requires n <= |ends| == |outlines|
    ensures |WithParts(st, ends, outlines, n, holes, s).planes| == |st.planes| + |Parts(ends, n)|
  {
    if n > 0 {
      var m: nat := n - 1;
      var before := WithParts(st, ends, outlines, m, holes, s);
      assert WithParts(st, ends, outlines, n, holes, s) == WithPart(before, PartOf(ends, m), outlines[m], holes, s);
      PassPlaneCount(st, ends, outlines, m, holes, s);
    }
  }

  lemma {:induction false} PassSketchCount(st: State, ends: Ends, outlines: seq<seq<Curve>>, n: nat, holes: nat, s: Settings)
    requires n <= |ends| == |outlines|
    ensures |WithParts(st, ends, outlines, n, holes, s).sketches| == |st.sketches| + |Parts(ends, n)|
  {
    if n > 0 {
      var m: nat := n - 1;
      var before := WithParts(st, ends, outlines, m, holes, s);
      assert WithParts(st, ends, outlines, n, holes, s) == WithPart(before, PartOf(ends, m), outlines[m], holes, s);
      PassSketchCount(st, ends, outlines, m, holes, s);
    }
  }

  /** The parts pass makes one sketch per part, on consecutive new planes, named after the member's position. */
  lemma {:induction false} PassSketches(st: State, ends: Ends, outlines: seq<seq<Curve>>, n: nat, holes: nat, s: Settings)
    requires n <= |ends| == |outlines|
    ensures WithParts(st, ends, outlines, n, holes, s).sketches == st.sketches + SketchesMade(ends, n, |st.planes|)
  {
    if n > 0 {
      var m: nat := n - 1;
      var next := |st.planes| + |Parts(ends, m)|;
      PassSketches(st, ends, outlines, m, holes, s);
      PassPlaneCount(st, ends, outlines, m, holes, s);
      AppendAssociative(st.sketches, SketchesMade(ends, m, |st.planes|), SketchOf(PartOf(ends, m), next));
    }
  }

  /** Each part leaves its plane and then its sketch on the timeline. */
  lemma {:induction false} PassTimeline(st: State, ends: Ends, outlines: seq<seq<Curve>>, n: nat, holes: nat, s: Settings)
    requires n <= |ends| == |outlines|
    ensures WithParts(st, ends, outlines, n, holes, s).timeline == st.timeline + EntriesMade(ends, n, s.extrudeDist, |st.planes|)
  {
    if n > 0 {
      var m: nat := n - 1;
      var next := |st.planes| + |Parts(ends, m)|;
      PassTimeline(st, ends, outlines, m, holes, s);
      PassPlaneCount(st, ends, outlines, m, holes, s);
      AppendAssociative(st.timeline, EntriesMade(ends, m, s.extrudeDist, |st.planes|),
                        EntriesOf(PartOf(ends, m), s.extrudeDist, next));
    }
  }

  /** The parts pass makes no group. */
  lemma {:induction false} PassGroups(st: State, ends: Ends, outlines: seq<seq<Curve>>, n: nat, holes: nat, s: Settings)
    requires n <= |ends| == |outlines|
    ensures WithParts(st, ends, outlines, n, holes, s).groups == st.groups
  {
    if n > 0 {
      var m: nat := n - 1;
      var before := WithParts(st, ends, outlines, m, holes, s);
      assert WithParts(st, ends, outlines, n, holes, s) == WithPart(before, PartOf(ends, m), outlines[m], holes, s);
      PassGroups(st, ends, outlines, m, holes, s);
    }
  }

  /** The holes sketch gets two circles per part, at its start joint and then its end joint. */
  lemma {:induction false} PassHoles(st: State, ends: Ends, outlines: seq<seq<Curve>>, n: nat, holes: nat, s: Settings)
    requires n <= |ends| == |outlines| && holes < |st.sketches|
    ensures Curves(WithParts(st, ends, outlines, n, holes, s), holes) == Curves(st, holes) + HolesDrawn(ends, n, s.holeDiameter)
  {
    if n > 0 {
      var m: nat := n - 1;
      PassHoles(st, ends, outlines, m, holes, s);
      PassSketchCount(st, ends, outlines, m, holes, s);
      AppendAssociative(Curves(st, holes), HolesDrawn(ends, m, s.holeDiameter), HolesOf(PartOf(ends, m), s.holeDiameter));
    }
  }

  /** No earlier sketch but the holes sketch gains curves in the parts pass. */
  lemma {:induction false} PassKeepsEarlier(st: State, ends: Ends, outlines: seq<seq<Curve>>, n: nat, holes: nat, s: Settings, x: nat)
    requires n <= |ends| == |outlines| && x < |st.sketches| && x != holes
    ensures Curves(WithParts(st, ends, outlines, n, holes, s), x) == Curves(st, x)
  {
    if n > 0 {
      var m: nat := n - 1;
      var before := WithParts(st, ends, outlines, m, holes, s);
      assert WithParts(st, ends, outlines, n, holes, s) == WithPart(before, PartOf(ends, m), outlines[m], holes, s);
      PassKeepsEarlier(st, ends, outlines, m, holes, s, x);
      PassSketchCount(st, ends, outlines, m, holes, s);
    }
  }

  /** Nor does a sketch index past the new sketches. */
  lemma {:induction false} PassKeepsLater(st: State, ends: Ends, outlines: seq<seq<Curve>>, n: nat, holes: nat, s: Settings, x: nat)
    requires n <= |ends| == |outlines| && holes < |st.sketches| && |st.sketches| + |Parts(ends, n)| <= x
    ensures Curves(WithParts(st, ends, outlines, n, holes, s), x) == Curves(st, x)
  {
    if n > 0 {
      var m: nat := n - 1;
      var before := WithParts(st, ends, outlines, m, holes, s);
      assert WithParts(st, ends, outlines, n, holes, s) == WithPart(before, PartOf(ends, m), outlines[m], holes, s);
      PassKeepsLater(st, ends, outlines, m, holes, s, x);
      PassSketchCount(st, ends, outlines, m, holes, s);
    }
  }

  /** The parts pass adds curves only to the holes sketch and to the sketches it makes. */
  lemma {:induction false} PassCurveKeys(st: State, ends: Ends, outlines: seq<seq<Curve>>, n: nat, holes: nat, s: Settings,
                                         x: nat)
    requires n <= |ends| == |outlines| && x in WithParts(st, ends, outlines, n, holes, s).curves
    ensures x in st.curves || x == holes || |st.sketches| <= x < |st.sketches| + |Parts(ends, n)|
  {
    if n > 0 {
      var m: nat := n - 1;
      var before := WithParts(st, ends, outlines, m, holes, s);
      assert WithParts(st, ends, outlines, n, holes, s) == WithPart(before, PartOf(ends, m), outlines[m], holes, s);
      PassSketchCount(st, ends, outlines, m, holes, s);
      if x in before.curves {
        PassCurveKeys(st, ends, outlines, m, holes, s, x);
      }
    }
  }

  /** A turn of the second loop adds curves only to the holes sketch and to its new sketch. */
  lemma PartKeeps(st: State, part: seq<Part>, outline: seq<Curve>, holes: nat, s: Settings, x: nat)
    requires x != holes && x != |st.sketches|
    ensures Curves(WithPart(st, part, outline, holes, s), x) == Curves(st, x)
  {
  }

  /** The new sketch of a turn of the second loop gets the member's outline. */
  lemma PartOutline(st: State, part: seq<Part>, outline: seq<Curve>, holes: nat, s: Settings)
    requires part != [] && holes < |st.sketches|
    ensures Curves(WithPart(st, part, outline, holes, s), |st.sketches|) == Curves(st, |st.sketches|) + outline
  {
  }

  /** A turn of the second loop leaves the curves of the parts drawn before it alone. */
  lemma OutlineKept(st: State, ends: Ends, outlines: seq<seq<Curve>>, n: nat, holes: nat, s: Settings, k: nat)
    requires 0 < n <= |ends| == |outlines| && holes < |st.sketches| && k < |Parts(ends, n - 1)|
    ensures Curves(WithParts(st, ends, outlines, n, holes, s), |st.sketches| + k) ==
            Curves(WithParts(st, ends, outlines, n - 1, holes, s), |st.sketches| + k)
  {
    var m: nat := n - 1;
    var before := WithParts(st, ends, outlines, m, holes, s);
    assert WithParts(st, ends, outlines, n, holes, s) == WithPart(before, PartOf(ends, m), outlines[m], holes, s);
    PassSketchCount(st, ends, outlines, m, holes, s);
    PartKeeps(before, PartOf(ends, m), outlines[m], holes, s, |st.sketches| + k);
  }

  /** A turn of the second loop that draws its member puts the outline on the sketch it makes. */
  lemma OutlineAdded(st: State, ends: Ends, outlines: seq<seq<Curve>>, n: nat, holes: nat, s: Settings)
    requires 0 < n <= |ends| == |outlines| && holes < |st.sketches| && PartOf(ends, n - 1) != []
    ensures var x := |st.sketches| + |Parts(ends, n - 1)|;
      Curves(WithParts(st, ends, outlines, n, holes, s), x) == Curves(st, x) + outlines[n - 1]
  {
    var m: nat, x := n - 1, |st.sketches| + |Parts(ends, n - 1)|;
    var before := WithParts(st, ends, outlines, m, holes, s);
    PassSketchCount(st, ends, outlines, m, holes, s);
    PassKeepsLater(st, ends, outlines, m, holes, s, x);
    PartOutline(before, PartOf(ends, m), outlines[m], holes, s);
  }

  /** The `k`-th new sketch holds the outline of the `k`-th part. */
  lemma {:induction false} PassOutlines(st: State, ends: Ends, outlines: seq<seq<Curve>>, n: nat, holes: nat, s: Settings, k: nat)
    requires n <= |ends| == |outlines| && holes < |st.sketches| && k < |Parts(ends, n)|
    ensures var p := Parts(ends, n)[k];
      p.position < n &&
      Curves(WithParts(st, ends, outlines, n, holes, s), |st.sketches| + k) == Curves(st, |st.sketches| + k) + outlines[p.position]
  {
    var m: nat := n - 1;
    PartsStep(ends, n, k);
    if k < |Parts(ends, m)| {
      PassOutlines(st, ends, outlines, m, holes, s, k);
      OutlineKept(st, ends, outlines, n, holes, s, k);
    } else {
      OutlineAdded(st, ends, outlines, n, holes, s);
    }
  }


}
