// The re-set rules that keep the FixedRotation coordinate conversion of the Qt6
// annotation API correct (shared/include/poppler/qt6/poppler-annotation.h,
// "FixedRotation flag specifics"). The conversion itself is hidden behind the
// setters, so the model tracks what the rules promise a caller: which pieces of
// geometry are stale, that is, were written in the wrong coordinate system and
// must be written again.
//
//  - Toggling FixedRotation makes the boundary and every other geometry
//    property stale; the boundary must be written first, then the others.
//  - Writing the boundary of a FixedRotation annotation makes every other
//    geometry property stale.

module GeometryDiscipline {

  import AnnotationEnums

  /** The geometry-related properties besides the boundary. */
  datatype GeometryField =
    | CalloutPoints       // TextAnnotation::setCalloutPoints
    | LinePoints          // LineAnnotation::setLinePoints
    | HighlightQuads      // HighlightAnnotation::setHighlightQuads
    | InkPaths            // InkAnnotation::setInkPaths
    | LinkRegionPoint(id: int)  // LinkAnnotation::setLinkRegionPoint(id, ...)

  /** What a caller still owes the annotation. `boundarySet` records whether a
      boundary was ever given (an annotation without one is not shown). */
  datatype GeometryState = GeometryState(boundarySet: bool, boundaryStale: bool, staleFields: set<GeometryField>)

  /** A freshly constructed annotation: nothing is stale, but no boundary yet. */
  const Fresh: GeometryState := GeometryState(false, false, {})

  /** An annotation read from a document: its geometry is as stored. */
  const Loaded: GeometryState := GeometryState(true, false, {})

  /** Every piece of geometry is current and there is a boundary to show. */
  predicate Consistent(g: GeometryState) {
    g.boundarySet && !g.boundaryStale && g.staleFields == {}
  }

  predicate IsFixed(flags: bv32) {
    AnnotationEnums.HasFlag(flags, AnnotationEnums.FixedRotation)
  }

  /** `setFlags` changes whether FixedRotation is set. */
  predicate Toggles(before: bv32, after: bv32) {
    IsFixed(before) != IsFixed(after)
  }

  /** The effect of `setFlags(after)` on an annotation whose flags were
      `before` and whose geometry properties are `fields`. */
  function AfterSetFlags(g: GeometryState, before: bv32, after: bv32, fields: set<GeometryField>): GeometryState {
    if Toggles(before, after) then g.(boundaryStale := true, staleFields := fields) else g
  }

  /** The effect of `setBoundary` on an annotation with `flags`. */
  function AfterSetBoundary(g: GeometryState, flags: bv32, fields: set<GeometryField>): GeometryState {
    GeometryState(true, false, if IsFixed(flags) then fields else g.staleFields)
  }

  /** The effect of writing geometry property `f`: it is current again, unless
      the boundary it depends on is still stale. */
  function AfterSetGeometry(g: GeometryState, f: GeometryField): GeometryState {
    if g.boundaryStale then g.(staleFields := g.staleFields + {f}) else g.(staleFields := g.staleFields - {f})
  }

  /** The calls that matter to the rules. */
  datatype Op = SetFlags(flags: bv32) | SetBoundary | SetGeometry(field: GeometryField)

  /** The flags and the geometry state of one annotation. */
  datatype Machine = Machine(flags: bv32, geometry: GeometryState)

  function Step(m: Machine, fields: set<GeometryField>, op: Op): Machine {
    match op
    case SetFlags(f) => Machine(f, AfterSetFlags(m.geometry, m.flags, f, fields))
    case SetBoundary => Machine(m.flags, AfterSetBoundary(m.geometry, m.flags, fields))
    case SetGeometry(f) => Machine(m.flags, AfterSetGeometry(m.geometry, f))
  }

  /** The calls `ops`, in order. */
  function Run(m: Machine, fields: set<GeometryField>, ops: seq<Op>): Machine
    decreases |ops|
  {
    if ops == [] then m else Run(Step(m, fields, ops[0]), fields, ops[1..])
  }

  /** Running two call sequences one after the other is running their concatenation. */
  lemma {:induction false} RunAppend(m: Machine, fields: set<GeometryField>, xs: seq<Op>, ys: seq<Op>)
    ensures Run(m, fields, xs + ys) == Run(Run(m, fields, xs), fields, ys)
    decreases |xs|
  {
    if xs != [] {
      var m' := Step(m, fields, xs[0]);
      assert (xs + ys)[0] == xs[0];
      assert (xs + ys)[1..] == xs[1..] + ys;
      assert Run(m, fields, xs + ys) == Run(m', fields, xs[1..] + ys);
      assert Run(m, fields, xs) == Run(m', fields, xs[1..]);
      RunAppend(m', fields, xs[1..], ys);
    } else {
      assert xs + ys == ys;
    }
  }

  /** Toggling FixedRotation leaves the boundary and every geometry property
      to be written again; any other flag change affects nothing. */
  lemma ToggleInvalidatesAll(m: Machine, fields: set<GeometryField>, flags: bv32)
    ensures var n := Step(m, fields, SetFlags(flags));
      n.flags == flags
      && (Toggles(m.flags, flags) ==> n.geometry.boundaryStale && n.geometry.staleFields == fields && !Consistent(n.geometry))
      && (!Toggles(m.flags, flags) ==> n.geometry == m.geometry)
  {
  }

  /** Writing the boundary clears its staleness; on a FixedRotation annotation
      it makes every other geometry property stale, otherwise it leaves them be. */
  lemma BoundaryWrite(m: Machine, fields: set<GeometryField>)
    ensures var g := Step(m, fields, SetBoundary).geometry;
      g.boundarySet && !g.boundaryStale
      && (IsFixed(m.flags) ==> g.staleFields == fields)
      && (!IsFixed(m.flags) ==> g.staleFields == m.geometry.staleFields)
  {
  }

  /** The calls that write the boundary. */
  predicate WritesBoundary(ops: seq<Op>) {
    exists i :: 0 <= i < |ops| && ops[i].SetBoundary?
  }

  /** After a toggle, no sequence of calls that skips the boundary makes the
      annotation consistent again: writing other geometry first is not enough. */
  lemma {:induction false} BoundaryFirst(m: Machine, fields: set<GeometryField>, ops: seq<Op>)
    requires m.geometry.boundaryStale
    requires !WritesBoundary(ops)
    ensures Run(m, fields, ops).geometry.boundaryStale
    ensures !Consistent(Run(m, fields, ops).geometry)
    decreases |ops|
  {
    if ops != [] {
      assert !ops[0].SetBoundary?;
      assert !WritesBoundary(ops[1..]) by {
        forall i | 0 <= i < |ops[1..]|
          ensures !ops[1..][i].SetBoundary?
        {
          assert ops[1..][i] == ops[i + 1];
        }
      }
      BoundaryFirst(Step(m, fields, ops[0]), fields, ops[1..]);
    }
  }

  /** Geometry writes, one per listed property. */
  function GeometryWrites(fs: seq<GeometryField>): (ops: seq<Op>)
    ensures |ops| == |fs|
    ensures forall i :: 0 <= i < |fs| ==> ops[i] == SetGeometry(fs[i])
  {
    if fs == [] then [] else [SetGeometry(fs[0])] + GeometryWrites(fs[1..])
  }

  /** With a current boundary, writing geometry properties makes exactly those
      current and changes nothing else. */
  lemma {:induction false} GeometryWritesClear(m: Machine, fields: set<GeometryField>, fs: seq<GeometryField>)
    requires !m.geometry.boundaryStale
    ensures var n := Run(m, fields, GeometryWrites(fs));
      n.flags == m.flags
      && n.geometry.boundarySet == m.geometry.boundarySet
      && !n.geometry.boundaryStale
      && n.geometry.staleFields == m.geometry.staleFields - set f | f in fs
    decreases |fs|
  {
    if fs != [] {
      var m' := Step(m, fields, SetGeometry(fs[0]));
      GeometryWritesClear(m', fields, fs[1..]);
      assert GeometryWrites(fs)[1..] == GeometryWrites(fs[1..]);
      assert (set f | f in fs) == {fs[0]} + set f | f in fs[1..] by {
        assert fs == [fs[0]] + fs[1..];
      }
    }
  }

  /** The recovery the rules prescribe: after toggling FixedRotation (or moving
      the boundary of a FixedRotation annotation), writing the boundary and then
      every geometry property makes the annotation consistent again. */
  lemma ResetRestores(m: Machine, fields: set<GeometryField>, fs: seq<GeometryField>)
    requires m.geometry.staleFields <= fields
    requires fields <= set f | f in fs
    ensures Consistent(Run(m, fields, [SetBoundary] + GeometryWrites(fs)).geometry)
  {
    var b := Step(m, fields, SetBoundary);
    assert Run(m, fields, [SetBoundary] + GeometryWrites(fs)) == Run(b, fields, GeometryWrites(fs)) by {
      RunAppend(m, fields, [SetBoundary], GeometryWrites(fs));
    }
    GeometryWritesClear(b, fields, fs);
  }

  /** A call that leaves FixedRotation clear. */
  predicate KeepsUnfixed(op: Op) {
    op.SetFlags? ==> !IsFixed(op.flags)
  }

  /** An annotation that never has FixedRotation set is never affected by the
      rules: from a consistent state, any calls keep it consistent. */
  lemma {:induction false} NeverFixedStaysConsistent(m: Machine, fields: set<GeometryField>, ops: seq<Op>)
    requires !IsFixed(m.flags) && Consistent(m.geometry)
    requires forall i :: 0 <= i < |ops| ==> KeepsUnfixed(ops[i])
    ensures Consistent(Run(m, fields, ops).geometry)
    decreases |ops|
  {
    if ops != [] {
      assert KeepsUnfixed(ops[0]);
      assert forall i :: 0 <= i < |ops[1..]| ==> KeepsUnfixed(ops[1..][i]) by {
        forall i | 0 <= i < |ops[1..]|
          ensures KeepsUnfixed(ops[1..][i])
        {
          assert ops[1..][i] == ops[i + 1];
        }
      }
      NeverFixedStaysConsistent(Step(m, fields, ops[0]), fields, ops[1..]);
    }
  }

  /** A call that only writes a geometry property other than the boundary. */
  predicate OnlyGeometry(op: Op) {
    op.SetGeometry?
  }

  /** A caller who never calls setFlags or setBoundary need not worry about the
      rules: from a consistent state, with or without FixedRotation (an
      annotation read from a document, say), geometry writes alone keep the
      annotation exactly as consistent as it was. */
  lemma {:induction false} GeometryOnlyStaysConsistent(m: Machine, fields: set<GeometryField>, ops: seq<Op>)
    requires Consistent(m.geometry)
    requires forall i :: 0 <= i < |ops| ==> OnlyGeometry(ops[i])
    ensures Run(m, fields, ops) == m
    ensures Consistent(Run(m, fields, ops).geometry)
    decreases |ops|
  {
    if ops != [] {
      assert OnlyGeometry(ops[0]);
      assert Step(m, fields, ops[0]) == m;
      assert forall i :: 0 <= i < |ops[1..]| ==> OnlyGeometry(ops[1..][i]) by {
        forall i | 0 <= i < |ops[1..]|
          ensures OnlyGeometry(ops[1..][i])
        {
          assert ops[1..][i] == ops[i + 1];
        }
      }
      GeometryOnlyStaysConsistent(m, fields, ops[1..]);
    }
  }

  /** Every step keeps the stale properties among the annotation's own. */
  lemma StepKeepsStaleWithin(m: Machine, fields: set<GeometryField>, op: Op)
    requires m.geometry.staleFields <= fields
    requires op.SetGeometry? ==> op.field in fields
    ensures Step(m, fields, op).geometry.staleFields <= fields
  {
  }
}
