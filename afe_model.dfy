/**
 * The in-memory ForceEffect model built by `parseAFEFile`: element records as
 * the markup decoder exposes them, the joint point lookup, the routing of
 * elements into id-keyed tables, the key enumeration, and the pass that tracks
 * the bounding box and the member length extremes.
 */
module AfeModel {
  import opened Wrappers
  import opened Container
  import Units

  /** A labelled point of a joint (its `Label` attribute is `name`); `x` and `y` are in the file's length unit. */
  datatype Point = Point(name: string, x: real, y: real)

  /**
   * A decoded child that is either a single object or an array of objects: the
   * decoder wraps repeated children in an array and leaves a lone child bare.
   */
  datatype OneOrMany<T> = One(item: T) | Many(items: seq<T>)

  /**
   * An `<Ided>` element. Attributes the element lacks read as ""; a child
   * element it lacks is `None`. `points` is the `Point` child of a joint;
   * `startJoint`/`endJoint` are the `StartJoint`/`EndJoint` children of a
   * member (component), each given by its `ObjId` attribute.
   */
  datatype Element = Element(
    typeId: string,
    objectId: string,
    points: Option<OneOrMany<Point>>,
    startJoint: Option<string>,
    endJoint: Option<string>)

  /**
   * The decoded `<File>` root: its `Title` and `LengthUnit` attributes ("" when
   * absent or empty) and `Elements.Ided` when both levels exist.
   */
  datatype Document = Document(title: string, lengthUnit: string, ided: Option<OneOrMany<Element>>)

  // ----- getJointPoint -------------------------------------------------------

  /** The first index at or after `from` whose point carries `name`. */
  function IndexOfLabel(ps: seq<Point>, name: string, from: nat): (r: Option<nat>)
    requires from <= |ps|
    ensures r.Some? ==> from <= r.value < |ps| && ps[r.value].name == name
    ensures r.Some? ==> forall j :: from <= j < r.value ==> ps[j].name != name
    ensures r.None? <==> forall j :: from <= j < |ps| ==> ps[j].name != name
    decreases |ps| - from
  {
    if from == |ps| then None
    else if ps[from].name == name then Some(from)
    else IndexOfLabel(ps, name, from + 1)
  }

  /** The point of a joint's `Point` child that carries `name`, if any. */
  function JointPoint(points: OneOrMany<Point>, name: string): (r: Option<Point>)
    ensures r.Some? ==> r.value.name == name
    ensures points.One? ==> (r.Some? <==> points.item.name == name) && (r.Some? ==> r.value == points.item)
    ensures points.Many? ==>
      (r.None? <==> forall i :: 0 <= i < |points.items| ==> points.items[i].name != name)
    ensures points.Many? && r.Some? ==>
      exists i :: 0 <= i < |points.items| && points.items[i] == r.value &&
        forall j :: 0 <= j < i ==> points.items[j].name != name
  {
    match points
    case One(p) => if p.name == name then Some(p) else None
    case Many(ps) =>
      // An empty array has a falsy `length`, so the source takes the singleton
      // branch and compares the array's own (missing) `Label`: no match.
      if |ps| == 0 then None
      else
        match IndexOfLabel(ps, name, 0)
        case Some(i) => Some(ps[i])
        case None => None
  }

  /**
   * The search loop of `getJointPoint` over a joint's `Point` child; `None`
   * stands for its `null`. A joint without that child makes `joint.Point.length`
   * throw, which the callers decide before calling.
   */
  method GetJointPoint(points: OneOrMany<Point>, name: string) returns (r: Option<Point>)
    ensures r == JointPoint(points, name)
  {
    match points {
      case One(p) =>
        if p.name == name {
          return Some(p);
        }
      case Many(ps) =>
        if |ps| == 0 {
          return None;
        }
        for i := 0 to |ps|
          invariant forall j :: 0 <= j < i ==> ps[j].name != name
        {
          if ps[i].name == name {
            return Some(ps[i]);
          }
        }
    }
    return None;
  }

  // ----- element routing -----------------------------------------------------

  /** The `TypeID` values that have a table. */
  const Kinds: set<string> := {"Joint", "Component", "Support"}

  /** The three id-keyed tables (`Joints`, `Components`, `Supports`). */
  datatype Tables = Tables(
    joints: map<string, Element>,
    components: map<string, Element>,
    supports: map<string, Element>)

  const NoTables: Tables := Tables(map[], map[], map[])

  /** The table that elements of type `kind` go to (none for other kinds). */
  function Table(t: Tables, kind: string): map<string, Element> {
    if kind == "Joint" then t.joints
    else if kind == "Component" then t.components
    else if kind == "Support" then t.supports
    else map[]
  }

  /** Element `e` stores itself in the table of `kind` under `id`. */
  predicate Routes(e: Element, kind: string, id: string) {
    e.typeId == kind && e.objectId == id
  }

  /** One step of the routing loop. */
  function Route(t: Tables, e: Element): (r: Tables)
    ensures e.typeId !in Kinds ==> r == t
    ensures e.typeId in Kinds ==> Table(r, e.typeId) == Table(t, e.typeId)[e.objectId := e]
    ensures forall kind :: kind in Kinds && kind != e.typeId ==> Table(r, kind) == Table(t, kind)
  {
    if e.typeId == "" then t
    else if e.typeId == "Joint" then t.(joints := t.joints[e.objectId := e])
    else if e.typeId == "Component" then t.(components := t.components[e.objectId := e])
    else if e.typeId == "Support" then t.(supports := t.supports[e.objectId := e])
    else t
  }

  /** The routing loop over the elements in document order. */
  function RouteAll(t: Tables, es: seq<Element>): Tables
    decreases |es|
  {
    if es == [] then t else RouteAll(Route(t, es[0]), es[1..])
  }

  /**
   * After routing, an id is in the table of `kind` exactly when it was there
   * before or some element of that kind carries it.
   */
  lemma {:induction false} RouteAllStores(t: Tables, es: seq<Element>, kind: string, id: string)
    requires kind in Kinds
    ensures id in Table(RouteAll(t, es), kind) <==>
      id in Table(t, kind) || exists i :: 0 <= i < |es| && Routes(es[i], kind, id)
    decreases |es|
  {
    if es != [] {
      var rest := es[1..];
      RouteAllStores(Route(t, es[0]), rest, kind, id);
      if exists i :: 0 <= i < |es| && Routes(es[i], kind, id) {
        var i :| 0 <= i < |es| && Routes(es[i], kind, id);
        if i > 0 {
          assert Routes(rest[i - 1], kind, id);
        }
      }
      if exists i :: 0 <= i < |rest| && Routes(rest[i], kind, id) {
        var i :| 0 <= i < |rest| && Routes(rest[i], kind, id);
        assert Routes(es[i + 1], kind, id);
      }
    }
  }

  /** With no element of `kind` carrying `id`, its entry survives routing unchanged. */
  lemma {:induction false} RouteAllKeeps(t: Tables, es: seq<Element>, kind: string, id: string)
    requires kind in Kinds && id in Table(t, kind)
    requires forall i :: 0 <= i < |es| ==> !Routes(es[i], kind, id)
    ensures id in Table(RouteAll(t, es), kind) && Table(RouteAll(t, es), kind)[id] == Table(t, kind)[id]
    decreases |es|
  {
    if es != [] {
      var rest := es[1..];
      assert !Routes(es[0], kind, id);
      assert forall j :: 0 <= j < |rest| ==> !Routes(rest[j], kind, id) by {
        forall j | 0 <= j < |rest| ensures !Routes(rest[j], kind, id) {
          assert rest[j] == es[j + 1];
        }
      }
      RouteAllKeeps(Route(t, es[0]), rest, kind, id);
    }
  }

  /** The last element of `kind` that carries `id` is the one the table holds. */
  lemma {:induction false} RouteAllLastWins(t: Tables, es: seq<Element>, kind: string, id: string, i: nat)
    requires kind in Kinds && i < |es| && Routes(es[i], kind, id)
    requires forall j :: i < j < |es| ==> !Routes(es[j], kind, id)
    ensures id in Table(RouteAll(t, es), kind) && Table(RouteAll(t, es), kind)[id] == es[i]
    decreases |es|
  {
    var rest := es[1..];
    assert forall j :: i - 1 < j < |rest| ==> !Routes(rest[j], kind, id) by {
      forall j | i - 1 < j < |rest| ensures !Routes(rest[j], kind, id) {
        assert rest[j] == es[j + 1];
      }
    }
    if i > 0 {
      assert Routes(rest[i - 1], kind, id);
      RouteAllLastWins(Route(t, es[0]), rest, kind, id, i - 1);
    } else {
      RouteAllKeeps(Route(t, es[0]), rest, kind, id);
    }
  }

  /**
   * The elements the routing loop visits: only an `Ided` that is an array has a
   * `length`; a lone `Ided` object, or no `Elements.Ided` at all, yields none.
   */
  function ElementList(ided: Option<OneOrMany<Element>>): seq<Element> {
    match ided
    case Some(Many(es)) => es
    case _ => []
  }

  // ----- hastableKeys ---------------------------------------------------------

  /** A duplicate-free enumeration of exactly the keys of `table`. */
  ghost predicate Enumerates(ids: seq<string>, table: map<string, Element>) {
    && (forall i :: 0 <= i < |ids| ==> ids[i] in table)
    && (forall k :: k in table ==> k in ids)
    && (forall i, j :: 0 <= i < j < |ids| ==> ids[i] != ids[j])
  }

  /**
   * The own keys of a table, each once. The enumeration order of a `for ... in`
   * loop is left to the engine, so any order is allowed here.
   */
  method TableKeys(table: map<string, Element>) returns (ids: seq<string>)
    ensures forall i :: 0 <= i < |ids| ==> ids[i] in table
    ensures forall k :: k in table ==> k in ids
    ensures forall i, j :: 0 <= i < j < |ids| ==> ids[i] != ids[j]
    ensures |ids| == |table|
  {
    ids := [];
    var rest := table.Keys;
    while rest != {}
      invariant rest <= table.Keys
      invariant forall i :: 0 <= i < |ids| ==> ids[i] in table && ids[i] !in rest
      invariant forall k :: k in table ==> k in ids || k in rest
      invariant forall i, j :: 0 <= i < j < |ids| ==> ids[i] != ids[j]
      invariant |ids| + |rest| == |table|
      decreases rest
    {
      var id :| id in rest;
      ids := ids + [id];
      rest := rest - {id};
    }
  }

  // ----- bounds and line lengths ----------------------------------------------

  /** `Number.MAX_VALUE`, the largest finite double, (2 − 2^−52)·2^1023. */
  const MaxValue: real := 179769313486231570814527423731704356798070567525844996598917476803157260780028538760589558632766878171540458953514382464234321326889464182768467546703537516986049910576551282076245490090389328944075868508455133942304583236903222948165808559332123348274797826204144723168738177180919299881250404026184124858368.0
  /** `Number.MIN_VALUE`, the smallest POSITIVE double, 2^−1074 (not −∞). */
  const MinValue: real := 1.0 / 202402253307310618352495346718917307049556649764142118356901358027430339567995346891960383701437124495187077864316811911389808737385793476867013399940738509921517424276566361364466907742093216341239767678472745068562007483424692698618103355649159556340810056512358769552333414615230502532186327508646006263307707741093494784.0

  datatype Bounds = Bounds(xMin: real, yMin: real, xMax: real, yMax: real)
  datatype LineLengths = LineLengths(min: real, max: real)
  datatype Extents = Extents(bounds: Bounds, lengths: LineLengths)

  /** The sentinels the model starts from. */
  const Unset: Extents :=
    Extents(Bounds(MaxValue, MaxValue, MinValue, MinValue), LineLengths(MaxValue, MinValue))

  lemma SentinelsOrdered()
    ensures 0.0 < MinValue < 1.0 < MaxValue
  {
  }

  function Min(a: real, b: real): real { if a < b then a else b }
  function Max(a: real, b: real): real { if a > b then a else b }

  /** A member's endpoints converted to centimetres: (x0, y0) to (x1, y1). */
  datatype Segment = Segment(x0: real, y0: real, x1: real, y1: real)

  /** How a member's joints resolve. */
  datatype Lookup =
    | Dangling                        // both joint references exist, but an id is not in the joint table
    | Broken(defect: Defect)          // reading the member's joints throws
    | Found(start: Point, end: Point) // the two "Origin" points

  /**
   * The lookups of one bounds-loop turn, in the script's order: both joint
   * references are read, then both joints are fetched, then both `Point`
   * children are searched, and only then are the points' coordinates read.
   */
  function LookupMember(joints: map<string, Element>, comp: Element): (l: Lookup)
    ensures l.Broken? && l.defect == NoJointRef <==> comp.startJoint.None? || comp.endJoint.None?
    ensures l.Dangling? <==>
      comp.startJoint.Some? && comp.endJoint.Some? &&
      (comp.startJoint.value !in joints || comp.endJoint.value !in joints)
    ensures l.Broken? && l.defect == NoPointChild <==>
      comp.startJoint.Some? && comp.endJoint.Some? &&
      comp.startJoint.value in joints && comp.endJoint.value in joints &&
      (joints[comp.startJoint.value].points.None? || joints[comp.endJoint.value].points.None?)
    ensures l.Found? <==>
      comp.startJoint.Some? && comp.endJoint.Some? &&
      comp.startJoint.value in joints && comp.endJoint.value in joints &&
      joints[comp.startJoint.value].points.Some? && joints[comp.endJoint.value].points.Some? &&
      JointPoint(joints[comp.startJoint.value].points.value, "Origin").Some? &&
      JointPoint(joints[comp.endJoint.value].points.value, "Origin").Some?
    ensures l.Found? ==>
      Some(l.start) == JointPoint(joints[comp.startJoint.value].points.value, "Origin") &&
      Some(l.end) == JointPoint(joints[comp.endJoint.value].points.value, "Origin")
  {
    if comp.startJoint.None? || comp.endJoint.None? then Broken(NoJointRef)
    else if comp.startJoint.value !in joints || comp.endJoint.value !in joints then Dangling
    else
      var startPoints := joints[comp.startJoint.value].points;
      var endPoints := joints[comp.endJoint.value].points;
      if startPoints.None? || endPoints.None? then Broken(NoPointChild)
      else
        match (JointPoint(startPoints.value, "Origin"), JointPoint(endPoints.value, "Origin"))
        case (Some(p), Some(q)) => Found(p, q)
        case _ => Broken(NoOrigin)
  }

  function Converted(unit: string, p: Point, q: Point): Segment {
    Segment(Units.ToCm(unit, p.x), Units.ToCm(unit, p.y), Units.ToCm(unit, q.x), Units.ToCm(unit, q.y))
  }

  function SquaredLength(s: Segment): real {
    (s.x1 - s.x0) * (s.x1 - s.x0) + (s.y1 - s.y0) * (s.y1 - s.y0)
  }

  /** `Math.sqrt` of the squared length; `sqrt` stands for the library function. */
  function Length(s: Segment, sqrt: real -> real): real {
    sqrt(SquaredLength(s))
  }

  /** Both endpoints lie in the box and the length lies in [min, max]. */
  predicate Covers(e: Extents, s: Segment, len: real) {
    && e.bounds.xMin <= s.x0 <= e.bounds.xMax && e.bounds.xMin <= s.x1 <= e.bounds.xMax
    && e.bounds.yMin <= s.y0 <= e.bounds.yMax && e.bounds.yMin <= s.y1 <= e.bounds.yMax
    && e.lengths.min <= len && len <= e.lengths.max
  }

  /** `outer` is at least as wide as `inner` in every direction. */
  predicate Encloses(outer: Extents, inner: Extents) {
    && outer.bounds.xMin <= inner.bounds.xMin && outer.bounds.yMin <= inner.bounds.yMin
    && outer.bounds.xMax >= inner.bounds.xMax && outer.bounds.yMax >= inner.bounds.yMax
    && outer.lengths.min <= inner.lengths.min && outer.lengths.max >= inner.lengths.max
  }

  /** The six tracked quantities, by name. */
  datatype Field = XMin | YMin | XMax | YMax | LenMin | LenMax

  function Get(e: Extents, f: Field): real {
    match f
    case XMin => e.bounds.xMin
    case YMin => e.bounds.yMin
    case XMax => e.bounds.xMax
    case YMax => e.bounds.yMax
    case LenMin => e.lengths.min
    case LenMax => e.lengths.max
  }

  /** The values a member can contribute to field `f`. */
  predicate Contributes(s: Segment, len: real, f: Field, v: real) {
    match f
    case XMin => v == s.x0 || v == s.x1
    case XMax => v == s.x0 || v == s.x1
    case YMin => v == s.y0 || v == s.y1
    case YMax => v == s.y0 || v == s.y1
    case LenMin => v == len
    case LenMax => v == len
  }

  /** One iteration of the bounds loop for a member whose joints resolve. */
  function Include(e: Extents, s: Segment, len: real): (r: Extents)
    ensures Covers(r, s, len)
    ensures Encloses(r, e)
    ensures forall f :: Get(r, f) == Get(e, f) || Contributes(s, len, f, Get(r, f))
  {
    var b := e.bounds;
    Extents(
      Bounds(
        Min(b.xMin, Min(s.x0, s.x1)), Min(b.yMin, Min(s.y0, s.y1)),
        Max(b.xMax, Max(s.x0, s.x1)), Max(b.yMax, Max(s.y0, s.y1))),
      LineLengths(
        if len < e.lengths.min then len else e.lengths.min,
        if len > e.lengths.max then len else e.lengths.max))
  }

  /**
   * The bounds loop over the member ids in order: dangling members are skipped,
   * and a broken member aborts the import (the property read on `undefined`
   * or `null` throws).
   */
  function Track(unit: string, joints: map<string, Element>, components: map<string, Element>,
                 ids: seq<string>, sqrt: real -> real, e: Extents): Result<Extents, ImportError>
    requires forall i :: 0 <= i < |ids| ==> ids[i] in components
    decreases |ids|
  {
    if ids == [] then Success(e)
    else
      match LookupMember(joints, components[ids[0]])
      case Dangling => Track(unit, joints, components, ids[1..], sqrt, e)
      case Broken(d) => Failure(BadMember(ids[0], d))
      case Found(p, q) =>
        var s := Converted(unit, p, q);
        Track(unit, joints, components, ids[1..], sqrt, Include(e, s, Length(s, sqrt)))
  }

  /**
   * A successful pass ends with a box and a length range that enclose the
   * starting ones and cover every member whose joints resolve.
   */
  lemma {:induction false} TrackCovers(unit: string, joints: map<string, Element>, components: map<string, Element>,
                                       ids: seq<string>, sqrt: real -> real, e: Extents)
    requires forall i :: 0 <= i < |ids| ==> ids[i] in components
    requires Track(unit, joints, components, ids, sqrt, e).Success?
    ensures Encloses(Track(unit, joints, components, ids, sqrt, e).value, e)
    ensures forall i :: 0 <= i < |ids| && LookupMember(joints, components[ids[i]]).Found? ==>
      var l := LookupMember(joints, components[ids[i]]);
      var s := Converted(unit, l.start, l.end);
      Covers(Track(unit, joints, components, ids, sqrt, e).value, s, Length(s, sqrt))
    decreases |ids|
  {
    if ids != [] {
      var l := LookupMember(joints, components[ids[0]]);
      var e' := if l.Found? then
        var s := Converted(unit, l.start, l.end); Include(e, s, Length(s, sqrt)) else e;
      TrackCovers(unit, joints, components, ids[1..], sqrt, e');
      assert forall i :: 1 <= i < |ids| ==> ids[i] == ids[1..][i - 1];
    }
  }

  /**
   * Each final quantity is either its starting value or one contributed by a
   * member whose joints resolve: the box and the range are the tightest ones.
   */
  lemma {:induction false} TrackAttained(unit: string, joints: map<string, Element>, components: map<string, Element>,
                                         ids: seq<string>, sqrt: real -> real, e: Extents, f: Field)
    requires forall i :: 0 <= i < |ids| ==> ids[i] in components
    requires Track(unit, joints, components, ids, sqrt, e).Success?
    ensures var v := Get(Track(unit, joints, components, ids, sqrt, e).value, f);
      v == Get(e, f) ||
      exists i :: 0 <= i < |ids| && LookupMember(joints, components[ids[i]]).Found? &&
        var l := LookupMember(joints, components[ids[i]]);
        var s := Converted(unit, l.start, l.end);
        Contributes(s, Length(s, sqrt), f, v)
    decreases |ids|
  {
    if ids != [] {
      var l := LookupMember(joints, components[ids[0]]);
      var e' := if l.Found? then
        var s := Converted(unit, l.start, l.end); Include(e, s, Length(s, sqrt)) else e;
      TrackAttained(unit, joints, components, ids[1..], sqrt, e', f);
      assert forall i :: 1 <= i < |ids| ==> ids[i] == ids[1..][i - 1];
    }
  }

  /**
   * Over an enumeration of the whole member table, the pass succeeds exactly
   * when every member resolves or dangles.
   */
  lemma TrackSucceedsIffResolvable(unit: string, joints: map<string, Element>, components: map<string, Element>,
                                   ids: seq<string>, sqrt: real -> real, e: Extents)
    requires Enumerates(ids, components)
    ensures Track(unit, joints, components, ids, sqrt, e).Success? <==> MembersResolve(joints, components)
  {
    TrackFails(unit, joints, components, ids, sqrt, e);
    if !MembersResolve(joints, components) {
      var id :| id in components && LookupMember(joints, components[id]).Broken?;
      var i :| 0 <= i < |ids| && ids[i] == id;
    }
  }

  /** A failing pass reports a broken member and what is wrong with it. */
  lemma {:induction false} TrackFailsAtBrokenMember(unit: string, joints: map<string, Element>,
                                                       components: map<string, Element>,
                                                       ids: seq<string>, sqrt: real -> real, e: Extents)
    requires forall i :: 0 <= i < |ids| ==> ids[i] in components
    requires Track(unit, joints, components, ids, sqrt, e).Failure?
    ensures var err := Track(unit, joints, components, ids, sqrt, e).error;
      err.BadMember? && err.componentId in components &&
      LookupMember(joints, components[err.componentId]) == Broken(err.defect)
    decreases |ids|
  {
    var l := LookupMember(joints, components[ids[0]]);
    if !l.Broken? {
      var e' := if l.Found? then
        var s := Converted(unit, l.start, l.end); Include(e, s, Length(s, sqrt)) else e;
      TrackFailsAtBrokenMember(unit, joints, components, ids[1..], sqrt, e');
    }
  }

  /**
   * The pass fails exactly when some listed member is broken: it lacks a joint
   * reference, or a joint it references lacks its `Point` child or its
   * "Origin" point.
   */
  lemma {:induction false} TrackFails(unit: string, joints: map<string, Element>, components: map<string, Element>,
                                      ids: seq<string>, sqrt: real -> real, e: Extents)
    requires forall i :: 0 <= i < |ids| ==> ids[i] in components
    ensures Track(unit, joints, components, ids, sqrt, e).Failure? <==>
      exists i :: 0 <= i < |ids| && LookupMember(joints, components[ids[i]]).Broken?
    decreases |ids|
  {
    if ids != [] {
      var l := LookupMember(joints, components[ids[0]]);
      var e' := if l.Found? then
        var s := Converted(unit, l.start, l.end); Include(e, s, Length(s, sqrt)) else e;
      TrackFails(unit, joints, components, ids[1..], sqrt, e');
      assert forall i :: 1 <= i < |ids| ==> ids[i] == ids[1..][i - 1];
    }
  }

  /** A member with a missing joint leaves the result as if it were not listed. */
  lemma {:induction false} TrackSkipsDangling(unit: string, joints: map<string, Element>, components: map<string, Element>,
                                              ids: seq<string>, sqrt: real -> real, e: Extents, k: nat)
    requires forall i :: 0 <= i < |ids| ==> ids[i] in components
    requires k < |ids| && LookupMember(joints, components[ids[k]]).Dangling?
    ensures Track(unit, joints, components, ids, sqrt, e) ==
      Track(unit, joints, components, ids[..k] + ids[k + 1..], sqrt, e)
    decreases k
  {
    var dropped := ids[..k] + ids[k + 1..];
    if k == 0 {
      assert dropped == ids[1..];
    } else {
      var l := LookupMember(joints, components[ids[0]]);
      var e' := if l.Found? then
        var s := Converted(unit, l.start, l.end); Include(e, s, Length(s, sqrt)) else e;
      TrackSkipsDangling(unit, joints, components, ids[1..], sqrt, e', k - 1);
      assert dropped[0] == ids[0];
      assert dropped[1..] == ids[1..][..k - 1] + ids[1..][k..];
    }
  }

  /**
   * A member without a `StartJoint` child is not skipped like a dangling one:
   * it aborts the pass, even when the joint its `EndJoint` names is complete.
   */
  lemma MemberWithoutStartJointFails(sqrt: real -> real)
    ensures var joint := Element("Joint", "3", Some(One(Point("Origin", 0.0, 0.0))), None, None);
      var member := Element("Component", "2", None, None, Some("3"));
      Track("ft", map["3" := joint], map["2" := member], ["2"], sqrt, Unset) == Failure(BadMember("2", NoJointRef))
  {
  }

  /** The maxima never drop below the `Number.MIN_VALUE` sentinel, which is positive. */
  lemma MaximaAboveSentinel(unit: string, joints: map<string, Element>, components: map<string, Element>,
                            ids: seq<string>, sqrt: real -> real)
    requires forall i :: 0 <= i < |ids| ==> ids[i] in components
    requires Track(unit, joints, components, ids, sqrt, Unset).Success?
    ensures var r := Track(unit, joints, components, ids, sqrt, Unset).value;
      r.bounds.xMax >= MinValue > 0.0 && r.bounds.yMax >= MinValue && r.lengths.max >= MinValue
  {
    TrackCovers(unit, joints, components, ids, sqrt, Unset);
  }

  /**
   * A consequence of that positive sentinel: when every resolved member lies at
   * negative x, the reported `xMax` is the sentinel, to the right of all of them.
   */
  lemma NegativeDiagramKeepsSentinel(unit: string, joints: map<string, Element>, components: map<string, Element>,
                                     ids: seq<string>, sqrt: real -> real)
    requires forall i :: 0 <= i < |ids| ==> ids[i] in components
    requires Track(unit, joints, components, ids, sqrt, Unset).Success?
    requires forall i :: 0 <= i < |ids| && LookupMember(joints, components[ids[i]]).Found? ==>
      var l := LookupMember(joints, components[ids[i]]);
      Converted(unit, l.start, l.end).x0 < 0.0 && Converted(unit, l.start, l.end).x1 < 0.0
    ensures Track(unit, joints, components, ids, sqrt, Unset).value.bounds.xMax == MinValue
  {
    TrackAttained(unit, joints, components, ids, sqrt, Unset, XMax);
    TrackCovers(unit, joints, components, ids, sqrt, Unset);
  }

  // ----- the model object -------------------------------------------------------

  /** The default part dimensions, in centimetres: "0.3 cm", "0.5 cm" and "1 mm". */
  const DefaultExtrudeDist: real := 0.3
  const DefaultComponentWidth: real := 0.5
  const DefaultJointHoleDiameter: real := 0.1

  /** The title a diagram without one gets. */
  const DefaultTitle: string := "ForceEffect Import"

  /** The title kept after reading the `Title` attribute: never empty. */
  function TitleOf(current: string, doc: Document): (title: string)
    ensures title != ""
    ensures doc.title != "" ==> title == doc.title
    ensures doc.title == "" && current != "" ==> title == current
    ensures doc.title == "" && current == "" ==> title == DefaultTitle
  {
    var t := if doc.title != "" then doc.title else current;
    if t == "" then DefaultTitle else t
  }

  /**
   * No member is broken: each has both joint references, and each whose joints
   * both exist has a `Point` child with an "Origin" point at each end.
   */
  ghost predicate MembersResolve(joints: map<string, Element>, components: map<string, Element>) {
    forall id :: id in components ==> !LookupMember(joints, components[id]).Broken?
  }

  /** The `afeModel` object: settings, the three tables, the tracked extents and the part dimensions. */
  class ImportModel {
    var title: string
    var filename: string
    var lengthUnit: string
    var joints: map<string, Element>
    var components: map<string, Element>
    var supports: map<string, Element>
    var bounds: Bounds
    var lineLengths: LineLengths
    var scale: real
    var extrudeDist: real
    var componentWidth: real
    var jointHoleDiameter: real
    /** Absent until the command writes the validated extrude height. */
    var extrudeHeight: Option<real>

    /** The geometry pass may rely on it: every member resolves or is skipped. */
    ghost predicate Resolvable()
      reads this
    {
      MembersResolve(joints, components)
    }

    /** The object literal that opens `parseAFEFile`. */
    constructor (filename: string)
      ensures this.filename == filename && title == "" && lengthUnit == "ft"
      ensures joints == map[] && components == map[] && supports == map[]
      ensures Extents(bounds, lineLengths) == Unset
      ensures scale == 1.0 && extrudeDist == DefaultExtrudeDist
      ensures componentWidth == DefaultComponentWidth && jointHoleDiameter == DefaultJointHoleDiameter
      ensures extrudeHeight == None
      ensures Resolvable()
    {
      title := "";
      this.filename := filename;
      lengthUnit := "ft";
      joints, components, supports := map[], map[], map[];
      bounds := Bounds(MaxValue, MaxValue, MinValue, MinValue);
      lineLengths := LineLengths(MaxValue, MinValue);
      scale := 1.0;
      extrudeDist := DefaultExtrudeDist;
      componentWidth := DefaultComponentWidth;
      jointHoleDiameter := DefaultJointHoleDiameter;
      extrudeHeight := None;
    }

    /** The `Title` and `LengthUnit` attributes override the defaults when present. */
    method ReadHeader(doc: Document)
      modifies this`title, this`lengthUnit
      ensures title == TitleOf(old(title), doc)
      ensures lengthUnit == if doc.lengthUnit != "" then doc.lengthUnit else old(lengthUnit)
    {
      if doc.title != "" {
        title := doc.title;
      }
      if title == "" {
        title := DefaultTitle;
      }
      if doc.lengthUnit != "" {
        lengthUnit := doc.lengthUnit;
      }
    }

    /** The loop that stores each element under its `ObjectId` in the table of its `TypeID`. */
    method RouteElements(ided: Option<OneOrMany<Element>>)
      modifies this`joints, this`components, this`supports
      ensures Tables(joints, components, supports) ==
        RouteAll(old(Tables(joints, components, supports)), ElementList(ided))
    {
      var es := ElementList(ided);
      for iElem := 0 to |es|
        invariant RouteAll(Tables(joints, components, supports), es[iElem..]) ==
          RouteAll(old(Tables(joints, components, supports)), es)
      {
        assert es[iElem..][1..] == es[iElem + 1..];
        var elem := es[iElem];
        if elem.typeId == "" {
          continue;
        }
        if elem.typeId == "Joint" {
          joints := joints[elem.objectId := elem];
        } else if elem.typeId == "Component" {
          components := components[elem.objectId := elem];
        } else if elem.typeId == "Support" {
          supports := supports[elem.objectId := elem];
        }
      }
    }

    /** The running minimum and maximum updates for one member's endpoints. */
    method IncludeSegment(xStart: real, yStart: real, xEnd: real, yEnd: real, sqrt: real -> real)
      modifies this`bounds, this`lineLengths
      ensures var s := Segment(xStart, yStart, xEnd, yEnd);
        Extents(bounds, lineLengths) == Include(old(Extents(bounds, lineLengths)), s, Length(s, sqrt))
    {
      bounds := Bounds(
        Min(bounds.xMin, Min(xStart, xEnd)), Min(bounds.yMin, Min(yStart, yEnd)),
        Max(bounds.xMax, Max(xStart, xEnd)), Max(bounds.yMax, Max(yStart, yEnd)));
      var lineLen := sqrt((xEnd - xStart) * (xEnd - xStart) + (yEnd - yStart) * (yEnd - yStart));
      if lineLen < lineLengths.min {
        lineLengths := lineLengths.(min := lineLen);
      }
      if lineLen > lineLengths.max {
        lineLengths := lineLengths.(max := lineLen);
      }
      assert (xEnd - xStart) * (xEnd - xStart) + (yEnd - yStart) * (yEnd - yStart) ==
        SquaredLength(Segment(xStart, yStart, xEnd, yEnd));
    }

    /**
     * The second pass over the members listed in `ids`. On success the tracked
     * extents are those of `Track`; on failure the import is abandoned.
     */
    method TrackExtents(ids: seq<string>, sqrt: real -> real) returns (r: Result<Extents, ImportError>)
      requires forall i :: 0 <= i < |ids| ==> ids[i] in components
      modifies this`bounds, this`lineLengths
      ensures r == Track(lengthUnit, joints, components, ids, sqrt, old(Extents(bounds, lineLengths)))
      ensures r.Success? ==> Extents(bounds, lineLengths) == r.value
    {
      var i := 0;
      while i < |ids|
        invariant 0 <= i <= |ids|
        invariant Track(lengthUnit, joints, components, ids[i..], sqrt, Extents(bounds, lineLengths)) ==
          Track(lengthUnit, joints, components, ids, sqrt, old(Extents(bounds, lineLengths)))
      {
        assert ids[i..][1..] == ids[i + 1..];
        var comp := components[ids[i]];
        if comp.startJoint.None? || comp.endJoint.None? {
          // reading `ObjId` of a missing child throws and aborts the import
          return Failure(BadMember(ids[i], NoJointRef));
        }
        if comp.startJoint.value !in joints || comp.endJoint.value !in joints {
          // a dangling member is logged and skipped
          i := i + 1;
          continue;
        }
        var startJoint := joints[comp.startJoint.value];
        var endJoint := joints[comp.endJoint.value];
        if startJoint.points.None? || endJoint.points.None? {
          // reading `length` of a missing `Point` child throws
          return Failure(BadMember(ids[i], NoPointChild));
        }
        var ptStart := GetJointPoint(startJoint.points.value, "Origin");
        var ptEnd := GetJointPoint(endJoint.points.value, "Origin");
        if ptStart.None? || ptEnd.None? {
          // reading `x` of a null point throws
          return Failure(BadMember(ids[i], NoOrigin));
        }
        var xStart := Units.ToCm(lengthUnit, ptStart.value.x);
        var yStart := Units.ToCm(lengthUnit, ptStart.value.y);
        var xEnd := Units.ToCm(lengthUnit, ptEnd.value.x);
        var yEnd := Units.ToCm(lengthUnit, ptEnd.value.y);
        assert LookupMember(joints, comp) == Found(ptStart.value, ptEnd.value);
        IncludeSegment(xStart, yStart, xEnd, yEnd, sqrt);
        i := i + 1;
      }
      return Success(Extents(bounds, lineLengths));
    }
  }

  /**
   * `m` is the model `parseAFEFile` builds from the decoded document `doc`,
   * with `ids` the member enumeration its bounds pass used.
   */
  ghost predicate BuiltFrom(m: ImportModel, filename: string, doc: Document, ids: seq<string>, sqrt: real -> real)
    reads m
  {
    && m.filename == filename && m.title == TitleOf("", doc)
    && m.lengthUnit == (if doc.lengthUnit != "" then doc.lengthUnit else "ft")
    && Tables(m.joints, m.components, m.supports) == RouteAll(NoTables, ElementList(doc.ided))
    && Enumerates(ids, m.components)
    && Track(m.lengthUnit, m.joints, m.components, ids, sqrt, Unset) == Success(Extents(m.bounds, m.lineLengths))
    && m.scale == 1.0 && m.extrudeDist == DefaultExtrudeDist
    && m.componentWidth == DefaultComponentWidth && m.jointHoleDiameter == DefaultJointHoleDiameter
    && m.extrudeHeight == None
    && m.Resolvable()
  }

  /** The model's state once the document has been read and before the bounds pass. */
  ghost predicate LoadedFrom(m: ImportModel, filename: string, doc: Document)
    reads m
  {
    && m.filename == filename && m.title == TitleOf("", doc)
    && m.lengthUnit == (if doc.lengthUnit != "" then doc.lengthUnit else "ft")
    && Tables(m.joints, m.components, m.supports) == RouteAll(NoTables, ElementList(doc.ided))
    && Extents(m.bounds, m.lineLengths) == Unset
    && m.scale == 1.0 && m.extrudeDist == DefaultExtrudeDist
    && m.componentWidth == DefaultComponentWidth && m.jointHoleDiameter == DefaultJointHoleDiameter
    && m.extrudeHeight == None
  }

  /** The defaults, then the header attributes and the element tables. */
  method LoadDocument(filename: string, doc: Document) returns (m: ImportModel)
    ensures fresh(m) && LoadedFrom(m, filename, doc)
  {
    m := new ImportModel(filename);
    m.ReadHeader(doc);
    m.RouteElements(doc.ided);
  }

  /**
   * The part of `parseAFEFile` after decoding: defaults, header, routing, key
   * enumeration and the bounds pass. `ids` is the member enumeration used.
   */
  method BuildModel(filename: string, doc: Document, sqrt: real -> real)
    returns (r: Result<ImportModel, ImportError>, ids: seq<string>)
    ensures var tables := RouteAll(NoTables, ElementList(doc.ided));
      r.Success? <==> MembersResolve(tables.joints, tables.components)
    ensures var tables := RouteAll(NoTables, ElementList(doc.ided));
      r.Failure? ==>
        && r.error.BadMember? && r.error.componentId in tables.components
        && LookupMember(tables.joints, tables.components[r.error.componentId]) == Broken(r.error.defect)
    ensures r.Success? ==> fresh(r.value) && BuiltFrom(r.value, filename, doc, ids, sqrt)
  {
    var m := LoadDocument(filename, doc);
    ids := TableKeys(m.components);
    var extents := m.TrackExtents(ids, sqrt);
    TrackSucceedsIffResolvable(m.lengthUnit, m.joints, m.components, ids, sqrt, Unset);
    if extents.Failure? {
      TrackFailsAtBrokenMember(m.lengthUnit, m.joints, m.components, ids, sqrt, Unset);
      return Failure(extents.error), ids;
    }
    r := Success(m);
  }

  /** The markup a buffer decodes to, when the buffer is long enough and decoding succeeds. */
  function Decoded(bytes: seq<Byte>, decode: seq<Byte> -> Option<Document>): Option<Document> {
    match Classify(bytes)
    case Success(sniffed) => decode(sniffed.markup)
    case Failure(_) => None
  }

  /**
   * `parseAFEFile` from the bytes that `adsk.readFile` returned. `decode` stands
   * for the UTF-8 decoding and XML-to-tree conversion; `sqrt` for `Math.sqrt`.
   */
  method ParseAfeFile(filename: string, bytes: seq<Byte>, decode: seq<Byte> -> Option<Document>, sqrt: real -> real)
    returns (r: Result<ImportModel, ImportError>, ids: seq<string>)
    ensures |bytes| < HeaderSize ==> r == Failure(TooShort)
    ensures |bytes| >= HeaderSize && Decoded(bytes, decode).None? ==> r == Failure(DecodeFailed)
    ensures Decoded(bytes, decode).Some? ==>
      var tables := RouteAll(NoTables, ElementList(Decoded(bytes, decode).value.ided));
      (r.Success? <==> MembersResolve(tables.joints, tables.components))
    ensures Decoded(bytes, decode).Some? ==>
      var tables := RouteAll(NoTables, ElementList(Decoded(bytes, decode).value.ided));
      r.Failure? ==>
        && r.error.BadMember? && r.error.componentId in tables.components
        && LookupMember(tables.joints, tables.components[r.error.componentId]) == Broken(r.error.defect)
    ensures r.Success? ==>
      Decoded(bytes, decode).Some? && fresh(r.value) &&
      BuiltFrom(r.value, filename, Decoded(bytes, decode).value, ids, sqrt)
  {
    var sniffed := Sniff(bytes);
    if sniffed.Failure? {
      return Failure(sniffed.error), [];
    }
    var doc := decode(sniffed.value.markup);
    if doc.None? {
      return Failure(DecodeFailed), [];
    }
    r, ids := BuildModel(filename, doc.value, sqrt);
  }
}
