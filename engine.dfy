/**
 * The part of the CAD host's object model the script drives: offset
 * construction planes, sketches and the curves added to them, extrude
 * features, and timeline groups. The host's design is modelled by the
 * collections the script adds to; every call appends to one or two of them,
 * and nothing already created changes except that a sketch gains curves.
 */
module Engine {
  import opened Layout

  /** The root component's XZ construction plane, or an offset plane by index. */
  datatype PlaneRef = BasePlane | OffsetPlane(index: nat)

  /**
   * The name a sketch is given: literal text, or a prefix followed by the
   * decimal digits of a number (what `prefix + n` makes of a number in the script).
   */
  datatype Name = Text(text: string) | Numbered(prefix: string, number: nat)

  /** `"" + n` for a natural number: its decimal digits. */
  function Decimal(n: nat): string
    decreases n
  {
    if n < 10 then ["0123456789"[n]] else Decimal(n / 10) + ["0123456789"[n % 10]]
  }

  lemma DigitsDistinct(i: nat, j: nat)
    requires i < 10 && j < 10 && "0123456789"[i] == "0123456789"[j]
    ensures i == j
  {
  }

  /** Different numbers have different decimal digits. */
  lemma {:induction false} DecimalInjective(a: nat, b: nat)
    requires Decimal(a) == Decimal(b)
    ensures a == b
    decreases a
  {
    var da, db := Decimal(a), Decimal(b);
    if a < 10 && b < 10 {
      assert da[0] == db[0];
      DigitsDistinct(a, b);
    } else if a >= 10 && b >= 10 {
      var pa, pb := Decimal(a / 10), Decimal(b / 10);
      assert pa == da[..|da| - 1] && pb == db[..|db| - 1];
      DecimalInjective(a / 10, b / 10);
      assert da[|da| - 1] == db[|db| - 1];
      DigitsDistinct(a % 10, b % 10);
    }
  }

  /** The characters of a name. */
  function NameText(nm: Name): string {
    match nm
    case Text(text) => text
    case Numbered(prefix, number) => prefix + Decimal(number)
  }

  /** A sketch as created: its name and its plane. */
  datatype Sketch = Sketch(name: Name, plane: PlaneRef)

  datatype Operation = NewBody | Cut

  /** One extrude of profile `profile` of sketch `sketch`, one-sided, by `distance`. */
  datatype Extrusion = Extrusion(sketch: nat, profile: nat, operation: Operation, distance: real)

  /** A timeline group over the entries `first` to `last`, both included. */
  datatype Group = Group(first: nat, last: nat)

  /** What a timeline entry records: a plane, a sketch, or an extrude feature. */
  datatype Entry = PlaneEntry(offset: real) | SketchEntry(sketch: Sketch) | ExtrudeEntry(extrusion: Extrusion)

  /**
   * The design's collections: its offset planes (by offset from the XZ plane),
   * its sketches, the curves of each sketch in the order they were added, its
   * timeline, and its timeline groups.
   */
  datatype State = State(planes: seq<real>, sketches: seq<Sketch>, curves: map<nat, seq<Curve>>,
                         timeline: seq<Entry>, groups: seq<Group>)

  /** The curves of sketch `sketch`; none for a sketch no curve was added to. */
  function Curves(st: State, sketch: nat): seq<Curve> {
    if sketch in st.curves then st.curves[sketch] else []
  }

  /** Only sketches that exist hold curves, as in a design the host hands over. */
  predicate Consistent(st: State) {
    forall x :: x in st.curves ==> x < |st.sketches|
  }

  // ----- the host's calls, on the collections ------------------------------------------

  /** `constructionPlanes.add` of a plane offset from the base plane. */
  function WithPlane(st: State, offset: real): State {
    st.(planes := st.planes + [offset], timeline := st.timeline + [PlaneEntry(offset)])
  }

  /** `sketches.add`, followed by naming the sketch. */
  function WithSketch(st: State, sk: Sketch): State {
    st.(sketches := st.sketches + [sk], timeline := st.timeline + [SketchEntry(sk)])
  }

  /** One line, arc or circle added to sketch `sketch`. */
  function WithCurve(st: State, sketch: nat, c: Curve): State {
    st.(curves := st.curves[sketch := Curves(st, sketch) + [c]])
  }

  /** `extrudeFeatures.add`. */
  function WithExtrusion(st: State, f: Extrusion): State {
    st.(timeline := st.timeline + [ExtrudeEntry(f)])
  }

  /** `timelineGroups.add`. */
  function WithGroup(st: State, g: Group): State {
    st.(groups := st.groups + [g])
  }

  /** A curve goes to its own sketch, after the curves already there; no other sketch changes. */
  lemma CurveAdded(st: State, sketch: nat, c: Curve, x: nat)
    ensures Curves(WithCurve(st, sketch, c), x) == Curves(st, x) + (if x == sketch then [c] else [])
  {
  }

  /** The host's design. */
  class Design {
    var planes: seq<real>
    var sketches: seq<Sketch>
    var curves: map<nat, seq<Curve>>
    var timeline: seq<Entry>
    var groups: seq<Group>
    /** How many closed profiles the host finds in a set of curves. */
    const profileCount: seq<Curve> -> nat

    function Snapshot(): State
      reads this
    {
      State(planes, sketches, curves, timeline, groups)
    }

    /** `profiles.count` of sketch `index`, from the curves it holds now. */
    function Profiles(index: nat): nat
      reads this
    {
      profileCount(Curves(Snapshot(), index))
    }

    constructor (st: State, profileCount: seq<Curve> -> nat)
      ensures Snapshot() == st && this.profileCount == profileCount
    {
      planes, sketches, curves, timeline, groups := st.planes, st.sketches, st.curves, st.timeline, st.groups;
      this.profileCount := profileCount;
    }

    method AddOffsetPlane(offset: real) returns (p: PlaneRef)
      modifies this
      ensures p == OffsetPlane(|old(planes)|)
      ensures Snapshot() == WithPlane(old(Snapshot()), offset)
    {
      p := OffsetPlane(|planes|);
      planes := planes + [offset];
      timeline := timeline + [PlaneEntry(offset)];
    }

    method AddSketch(name: Name, plane: PlaneRef) returns (index: nat)
      requires plane.OffsetPlane? ==> plane.index < |planes|
      modifies this
      ensures index == |old(sketches)|
      ensures Snapshot() == WithSketch(old(Snapshot()), Sketch(name, plane))
    {
      index := |sketches|;
      sketches := sketches + [Sketch(name, plane)];
      timeline := timeline + [SketchEntry(Sketch(name, plane))];
    }

    method AddCurve(index: nat, c: Curve)
      requires index < |sketches|
      modifies this
      ensures Snapshot() == WithCurve(old(Snapshot()), index, c)
    {
      curves := curves[index := Curves(Snapshot(), index) + [c]];
    }

    /** Extrudes need a profile the sketch has. */
    method AddExtrusion(f: Extrusion)
      requires f.sketch < |sketches| && f.profile < Profiles(f.sketch)
      modifies this
      ensures Snapshot() == WithExtrusion(old(Snapshot()), f)
    {
      timeline := timeline + [ExtrudeEntry(f)];
    }

    /** `timelineGroups.add(first, last)` needs two entries of the timeline, in order. */
    method AddGroup(first: nat, last: nat)
      requires first < last < |timeline|
      modifies this
      ensures Snapshot() == WithGroup(old(Snapshot()), Group(first, last))
    {
      groups := groups + [Group(first, last)];
    }
  }
}
