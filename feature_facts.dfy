/**
 * What the features that follow the two passes add to the design: one
 * extrude per profile, the new bodies before the hole cuts, and a timeline
 * group around them when there are at least two.
 */
module FeatureFacts {
  import opened Layout
  import opened Engine
  import opened Drawing

  // ----- the extrudes of one sketch ------------------------------------------------------

  lemma {:induction false} ExtrudeEntriesLength(sketch: nat, n: nat, op: Operation, distance: real)
    ensures |ExtrudeEntries(sketch, n, op, distance)| == n
  {
    if n > 0 {
      ExtrudeEntriesLength(sketch, n - 1, op, distance);
    }
  }

  /** Entry `k` of the extrudes of a sketch extrudes its profile `k`. */
  lemma {:induction false} ExtrudeEntriesAt(sketch: nat, n: nat, op: Operation, distance: real, k: nat)
    requires k < n
    ensures k < |ExtrudeEntries(sketch, n, op, distance)| &&
            ExtrudeEntries(sketch, n, op, distance)[k] == ExtrudeEntry(Extrusion(sketch, k, op, distance))
  {
    var before := ExtrudeEntries(sketch, n - 1, op, distance);
    ExtrudeEntriesLength(sketch, n - 1, op, distance);
    assert ExtrudeEntries(sketch, n, op, distance) == before + [ExtrudeEntry(Extrusion(sketch, n - 1, op, distance))];
    if k < n - 1 {
      ExtrudeEntriesAt(sketch, n - 1, op, distance, k);
    }
  }

  // ----- the new bodies ------------------------------------------------------------------

  /** A new-body extrude, by `distance`, of a profile that one of the first `n` sketches has in `base`. */
  ghost predicate BodyOf(e: Entry, base: State, profileCount: seq<Curve> -> nat, sketches: seq<nat>, n: nat, distance: real)
    requires n <= |sketches|
  {
    && e.ExtrudeEntry? && e.extrusion.operation == NewBody && e.extrusion.distance == distance
    && (exists j :: 0 <= j < n && e.extrusion.sketch == sketches[j])
    && e.extrusion.profile < profileCount(Curves(base, e.extrusion.sketch))
  }

  /** Every new-body entry extrudes a profile of one of the part sketches, by the extrude distance. */
  lemma {:induction false} BodyEntriesSound(base: State, profileCount: seq<Curve> -> nat, sketches: seq<nat>, n: nat,
                                            distance: real, k: nat)
    requires n <= |sketches| && k < |BodyEntries(base, profileCount, sketches, n, distance)|
    ensures BodyOf(BodyEntries(base, profileCount, sketches, n, distance)[k], base, profileCount, sketches, n, distance)
  {
    var m: nat := n - 1;
    var sketch := sketches[m];
    var count := profileCount(Curves(base, sketch));
    var before, added := BodyEntries(base, profileCount, sketches, m, distance), ExtrudeEntries(sketch, count, NewBody, distance);
    assert BodyEntries(base, profileCount, sketches, n, distance) == before + added;
    if k < |before| {
      BodyEntriesSound(base, profileCount, sketches, m, distance, k);
      var j :| 0 <= j < m && before[k].extrusion.sketch == sketches[j];
      assert j < n;
    } else {
      ExtrudeEntriesLength(sketch, count, NewBody, distance);
      ExtrudeEntriesAt(sketch, count, NewBody, distance, k - |before|);
      assert m < n;
    }
  }

  /** Every profile of every one of the first `n` sketches gets a new-body extrude. */
  lemma {:induction false} BodyEntriesComplete(base: State, profileCount: seq<Curve> -> nat, sketches: seq<nat>, n: nat,
                                               distance: real, j: nat, profile: nat)
    requires j < n <= |sketches| && profile < profileCount(Curves(base, sketches[j]))
    ensures exists k :: 0 <= k < |BodyEntries(base, profileCount, sketches, n, distance)| &&
              BodyEntries(base, profileCount, sketches, n, distance)[k] ==
              ExtrudeEntry(Extrusion(sketches[j], profile, NewBody, distance))
  {
    var m: nat := n - 1;
    var sketch := sketches[m];
    var count := profileCount(Curves(base, sketch));
    var before, added := BodyEntries(base, profileCount, sketches, m, distance), ExtrudeEntries(sketch, count, NewBody, distance);
    var all := BodyEntries(base, profileCount, sketches, n, distance);
    assert all == before + added;
    if j < m {
      BodyEntriesComplete(base, profileCount, sketches, m, distance, j, profile);
      var k :| 0 <= k < |before| && before[k] == ExtrudeEntry(Extrusion(sketches[j], profile, NewBody, distance));
      assert all[k] == before[k];
    } else {
      ExtrudeEntriesAt(sketch, count, NewBody, distance, profile);
      assert all[|before| + profile] == added[profile];
    }
  }

  /**
   * The new-body extrudes of sketches `first`, `first + 1`, ... when these
   * hold the curves `cs[0]`, `cs[1]`, ...: every profile of each, sketch by
   * sketch.
   */
  function BodiesFor(cs: seq<seq<Curve>>, first: nat, n: nat, profileCount: seq<Curve> -> nat, distance: real): seq<Entry>
    requires n <= |cs|
  {
    if n == 0 then []
    else BodiesFor(cs, first, n - 1, profileCount, distance) +
         ExtrudeEntries(first + n - 1, profileCount(cs[n - 1]), NewBody, distance)
  }

  /** The loop over consecutive part sketches extrudes what those sketches hold. */
  lemma {:induction false} BodyEntriesFor(base: State, profileCount: seq<Curve> -> nat, cs: seq<seq<Curve>>, first: nat,
                                          n: nat, distance: real)
    requires n <= |cs|
    requires forall k :: 0 <= k < |cs| ==> Curves(base, first + k) == cs[k]
    ensures BodyEntries(base, profileCount, Consecutive(first, |cs|), n, distance) ==
            BodiesFor(cs, first, n, profileCount, distance)
  {
    if n > 0 {
      BodyEntriesFor(base, profileCount, cs, first, n - 1, distance);
      assert Consecutive(first, |cs|)[n - 1] == first + (n - 1);
      assert Curves(base, first + (n - 1)) == cs[n - 1];
    }
  }

  // ----- extrudes, cut and group -----------------------------------------------------------

  /** The features change only the timeline and the groups. */
  lemma FeaturesKeepDrawing(parts: State, holes: nat, n: nat, extrudeDist: real, profileCount: seq<Curve> -> nat)
    ensures var f := WithFeatures(parts, holes, n, extrudeDist, profileCount);
      f.planes == parts.planes && f.sketches == parts.sketches && f.curves == parts.curves
  {
  }

  /**
   * After the timeline of the passes: the new-body extrudes of the `n` part
   * sketches, then one cut of each hole profile, by the cut depth for `n` parts.
   */
  lemma FeaturesTimeline(parts: State, holes: nat, n: nat, extrudeDist: real, profileCount: seq<Curve> -> nat)
    ensures WithFeatures(parts, holes, n, extrudeDist, profileCount).timeline ==
            parts.timeline + BodyEntries(parts, profileCount, Consecutive(holes + 1, n), n, extrudeDist) +
            ExtrudeEntries(holes, profileCount(Curves(parts, holes)), Cut, CutDepth(n, extrudeDist))
  {
  }

  /** At least two features: one group, from the first feature to the last. */
  lemma FeaturesGrouped(parts: State, holes: nat, n: nat, extrudeDist: real, profileCount: seq<Curve> -> nat)
    requires |WithFeatures(parts, holes, n, extrudeDist, profileCount).timeline| >= |parts.timeline| + 2
    ensures var f := WithFeatures(parts, holes, n, extrudeDist, profileCount);
      f.groups == parts.groups + [Group(|parts.timeline|, |f.timeline| - 1)]
  {
  }

  /** Fewer than two features: no group (a single feature is not grouped). */
  lemma FeaturesUngrouped(parts: State, holes: nat, n: nat, extrudeDist: real, profileCount: seq<Curve> -> nat)
    requires |WithFeatures(parts, holes, n, extrudeDist, profileCount).timeline| < |parts.timeline| + 2
    ensures WithFeatures(parts, holes, n, extrudeDist, profileCount).groups == parts.groups
  {
  }
}
