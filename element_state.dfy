/**
 * The per-element state of BaseElement (elements/element.py): the
 * is_dirty flag, whose setter marks the neighbours in the interaction
 * graph, and the three geometry caches with their getters.
 *
 * The dirty flags of all elements of a model are an array indexed by
 * graph node, as `list(model.elements())[neighbor]` indexes them.
 */
module ElementState {
  import opened Base
  import opened ModelGraph
  import opened CutPipeline

  // ---------------------------------------------------------------------
  // The is_dirty setter as written: it recurses into every neighbour,
  // whatever that neighbour's flag, until Python's recursion limit.
  // ---------------------------------------------------------------------

  /**
   * `elements[e].is_dirty = value` with `depth` frames already on the
   * stack and the interpreter's recursion limit `limit`.
   */
  function SetDirtyAsWritten(rs: seq<Interaction>, dirty: seq<bool>, e: nat, value: bool, depth: nat, limit: nat): (r: Result<seq<bool>>)
    requires e < |dirty| && GraphIn(rs, |dirty|)
    ensures r.Ok? ==> |r.value| == |dirty|
    decreases limit - depth, 0
  {
    if depth >= limit then Err(RecursionError)
    else
      var d := dirty[e := value];
      if !value then Ok(d)
      else
        NeighborsBounded(rs, e, |dirty|);
        DirtyNeighboursAsWritten(rs, d, Neighbors(rs, e), depth + 1, limit)
  }

  /** The setter's loop: `elements[neighbor].is_dirty = True` for each neighbour in turn. */
  function DirtyNeighboursAsWritten(rs: seq<Interaction>, dirty: seq<bool>, ns: seq<nat>, depth: nat, limit: nat): (r: Result<seq<bool>>)
    requires GraphIn(rs, |dirty|) && forall w :: w in ns ==> w < |dirty|
    ensures r.Ok? ==> |r.value| == |dirty|
    decreases limit - depth, 1, |ns|
  {
    if ns == [] then Ok(dirty)
    else
      Uncons(ns);
      match SetDirtyAsWritten(rs, dirty, ns[0], true, depth, limit)
      case Err(e) => Err(e)
      case Ok(d) => DirtyNeighboursAsWritten(rs, d, ns[1..], depth, limit)
  }

  /**
   * Setting is_dirty to True on any element that has a neighbour never
   * finishes: the first neighbour has the element itself as a neighbour,
   * so the calls go back and forth until the recursion limit.
   */
  lemma {:induction false} DirtyRecursesForever(rs: seq<Interaction>, dirty: seq<bool>, e: nat, depth: nat, limit: nat)
    requires e < |dirty| && GraphIn(rs, |dirty|)
    requires Neighbors(rs, e) != []
    ensures SetDirtyAsWritten(rs, dirty, e, true, depth, limit) == Err(RecursionError)
    decreases limit - depth
  {
    if depth < limit {
      var d := dirty[e := true];
      var ns := Neighbors(rs, e);
      NeighborsBounded(rs, e, |dirty|);
      var n := ns[0];
      NeighborsAreAdjacent(rs, e);
      NeighborsAreAdjacent(rs, n);
      assert n in ns;
      assert e in Neighbors(rs, n);
      DirtyRecursesForever(rs, d, n, depth + 1, limit);
    }
  }

  /** Clearing the flag does not recurse. */
  lemma ClearAsWritten(rs: seq<Interaction>, dirty: seq<bool>, e: nat, depth: nat, limit: nat)
    requires e < |dirty| && GraphIn(rs, |dirty|) && depth < limit
    ensures SetDirtyAsWritten(rs, dirty, e, false, depth, limit) == Ok(dirty[e := false])
  {
  }

  // ---------------------------------------------------------------------
  // The setter as evidently intended: a neighbour that is already dirty
  // is not visited again.
  // ---------------------------------------------------------------------

  /** The number of clean elements. */
  function Clean(d: seq<bool>): nat
  {
    if d == [] then 0 else (if d[0] then 0 else 1) + Clean(d[1..])
  }

  lemma {:induction false} CleanMark(d: seq<bool>, i: nat)
    requires i < |d|
    ensures Clean(d[i := true]) == Clean(d) - (if d[i] then 0 else 1)
  {
    if i > 0 {
      assert d[i := true][1..] == d[1..][i - 1 := true];
      CleanMark(d[1..], i - 1);
    }
  }

  /** Every flag set in d is set in d2. */
  predicate Marks(d: seq<bool>, d2: seq<bool>)
  {
    |d| == |d2| && forall i :: 0 <= i < |d| && d[i] ==> d2[i]
  }

  lemma {:induction false} CleanMonotone(d: seq<bool>, d2: seq<bool>)
    requires Marks(d, d2)
    ensures Clean(d2) <= Clean(d)
  {
    if d != [] {
      assert Marks(d[1..], d2[1..]) by {
        forall i | 0 <= i < |d[1..]| && d[1..][i]
          ensures d2[1..][i]
        {
          assert d[i + 1];
        }
      }
      CleanMonotone(d[1..], d2[1..]);
    }
  }

  /**
   * Every element that became dirty, and e, has all its neighbours dirty:
   * the invalidation reaches through every element it marks.
   */
  predicate ClosedFrom(rs: seq<Interaction>, d: seq<bool>, r: seq<bool>)
    requires |d| == |r|
  {
    forall i :: 0 <= i < |r| && r[i] && !d[i] ==> forall w :: w in Neighbors(rs, i) ==> w < |r| && r[w]
  }

  /**
   * `elements[e].is_dirty = value`: the flag is set, and when it is set to
   * True every neighbour not yet dirty is set in turn.
   */
  function SetDirty(rs: seq<Interaction>, dirty: seq<bool>, e: nat, value: bool): (r: seq<bool>)
    requires e < |dirty| && GraphIn(rs, |dirty|)
    ensures |r| == |dirty| && r[e] == value
    ensures !value ==> r == dirty[e := false]
    ensures value ==> Marks(dirty, r) && ClosedFrom(rs, dirty, r)
    ensures value ==> forall w :: w in Neighbors(rs, e) ==> w < |r| && r[w]
    ensures value ==> Clean(r) <= Clean(dirty) - (if dirty[e] then 0 else 1)
    decreases Clean(dirty) - (if value && !dirty[e] then 1 else 0), 1
  {
    if !value then dirty[e := false]
    else
      NeighborsBounded(rs, e, |dirty|);
      CleanMark(dirty, e);
      var r := MarkAll(rs, dirty[e := true], Neighbors(rs, e));
      CleanMonotone(dirty[e := true], r);
      r
  }

  /** The corrected loop: only the neighbours still clean are set dirty. */
  function MarkAll(rs: seq<Interaction>, dirty: seq<bool>, ns: seq<nat>): (r: seq<bool>)
    requires GraphIn(rs, |dirty|) && forall w :: w in ns ==> w < |dirty|
    ensures Marks(dirty, r) && ClosedFrom(rs, dirty, r)
    ensures forall w :: w in ns ==> r[w]
    decreases Clean(dirty), 0, |ns|
  {
    if ns == [] then dirty
    else
      Uncons(ns);
      if dirty[ns[0]] then
      MarkAll(rs, dirty, ns[1..])
    else
      var d := SetDirty(rs, dirty, ns[0], true);
      CleanMonotone(dirty, d);
      MarkAll(rs, d, ns[1..])
  }

  /** Setting the flag on a dirty element with no clean neighbour changes nothing. */
  lemma SetDirtyStops(rs: seq<Interaction>, dirty: seq<bool>, e: nat)
    requires e < |dirty| && GraphIn(rs, |dirty|) && dirty[e]
    requires forall w :: w in Neighbors(rs, e) ==> w < |dirty| && dirty[w]
    ensures SetDirty(rs, dirty, e, true) == dirty
  {
    NeighborsBounded(rs, e, |dirty|);
    assert dirty[e := true] == dirty;
    AllDirtyKept(rs, dirty, Neighbors(rs, e));
  }

  lemma {:induction false} AllDirtyKept(rs: seq<Interaction>, dirty: seq<bool>, ns: seq<nat>)
    requires GraphIn(rs, |dirty|) && forall w :: w in ns ==> w < |dirty| && dirty[w]
    ensures MarkAll(rs, dirty, ns) == dirty
    decreases |ns|
  {
    if ns != [] {
      Uncons(ns);
      AllDirtyKept(rs, dirty, ns[1..]);
    }
  }

  /** The corrected setter, on the flags of all elements. */
  method SetIsDirty(flags: array<bool>, rs: seq<Interaction>, e: nat, value: bool)
    requires e < flags.Length && GraphIn(rs, flags.Length)
    modifies flags
    ensures flags[..] == SetDirty(rs, old(flags[..]), e, value)
    decreases Clean(flags[..]) - (if value && !flags[e] then 1 else 0), 1
  {
    ghost var d0 := flags[..];
    CleanMark(d0, e);
    flags[e] := value;
    if value {
      ghost var d1 := flags[..];
      assert d1 == d0[e := true];
      var ns := Neighbors(rs, e);
      NeighborsBounded(rs, e, flags.Length);
      var i := 0;
      assert ns[i..] == ns;
      while i < |ns|
        invariant 0 <= i <= |ns|
        invariant flags.Length == |d1| && Marks(d1, flags[..])
        invariant forall w :: w in ns[i..] ==> w < flags.Length
        invariant MarkAll(rs, d1, ns) == MarkAll(rs, flags[..], ns[i..])
      {
        assert ns[i..][0] == ns[i] && ns[i..][1..] == ns[i + 1..];
        var n := ns[i];
        Uncons(ns[i..]);
        if !flags[n] {
          ghost var before := flags[..];
          CleanMonotone(d1, before);
          SetIsDirty(flags, rs, n, true);
        }
        i := i + 1;
      }
    }
  }

  // ---------------------------------------------------------------------
  // The geometry caches
  // ---------------------------------------------------------------------

  /**
   * The caches of one element: _is_dirty, _geometry_element,
   * _geometry_model and _geometry_world (None is the falsy empty cache).
   */
  class Caches<G> {
    var isDirty: bool
    var geometryElement: Option<G>
    var geometryModel: Option<G>
    var geometryWorld: Option<G>

    /** A new element is dirty and has empty caches. */
    constructor ()
      ensures isDirty && geometryElement == None && geometryModel == None && geometryWorld == None
    {
      isDirty := true;
      geometryElement := None;
      geometryModel := None;
      geometryWorld := None;
    }

    /**
     * The geometry_element getter as written: compute_geometry_element of
     * BaseElement has an empty body, so the cache stays as it was, and the
     * getter has no return statement.
     */
    method GeometryElementAsWritten() returns (r: Option<G>)
      modifies this
      ensures r == None
      ensures geometryElement == old(geometryElement)
      ensures isDirty == old(isDirty) && geometryModel == old(geometryModel) && geometryWorld == old(geometryWorld)
    {
      if geometryElement.None? {
        geometryElement := None;
      }
      r := None;
    }

    /** The getter returning its cache, filled by the subclass's compute_geometry_element. */
    method GeometryElement(computed: G) returns (r: G)
      modifies this
      ensures geometryElement == Some(r)
      ensures old(geometryElement).Some? ==> r == old(geometryElement).value
      ensures old(geometryElement).None? ==> r == computed
      ensures isDirty == old(isDirty) && geometryModel == old(geometryModel) && geometryWorld == old(geometryWorld)
    {
      if geometryElement.None? {
        geometryElement := Some(computed);
      }
      r := geometryElement.value;
    }

    /**
     * The geometry_model getter as written: it recomputes when the cache
     * is empty or the element is dirty (an exception of the computation
     * propagates), and returns None.
     */
    method GeometryModelAsWritten<P, X>(k: Kernel<G, P, X>, globals: Globals<G, P>, rs: seq<Interaction>, bases: seq<G>,
                                        self: nat, world: X, identity: X) returns (r: Result<Option<G>>)
      requires self < |bases|
      modifies this, globals
      ensures r.Ok? ==> r.value == None
      ensures globals.debug == old(globals.debug)
      ensures var o := Apply(k, old(globals.debug), bases, AppliedCuts(rs, self), k.transform(k.transform(bases[self], world), identity), identity);
        if old(geometryModel).Some? && !old(isDirty) then
          r == Ok(None) && geometryModel == old(geometryModel) && globals.globalProperty == old(globals.globalProperty)
        else
          (r == if o.geometry.Ok? then Ok(None) else Err(o.geometry.error)) &&
          globals.globalProperty == old(globals.globalProperty) + o.log &&
          (o.geometry.Ok? ==> geometryModel == Some(o.geometry.value))
      ensures isDirty == old(isDirty) && geometryElement == old(geometryElement) && geometryWorld == old(geometryWorld)
    {
      if geometryModel.None? || isDirty {
        var m := ComputeGeometryModel(k, globals, rs, bases, self, world, identity);
        if m.Err? {
          return Err(m.error);
        }
        geometryModel := Some(m.value);
      }
      r := Ok(None);
    }

    /** The geometry_model getter returning the geometry it caches. */
    method GeometryModel<P, X>(k: Kernel<G, P, X>, globals: Globals<G, P>, rs: seq<Interaction>, bases: seq<G>,
                               self: nat, world: X, identity: X) returns (r: Result<G>)
      requires self < |bases|
      modifies this, globals
      ensures globals.debug == old(globals.debug)
      ensures r.Ok? ==> geometryModel == Some(r.value)
      ensures var o := Apply(k, old(globals.debug), bases, AppliedCuts(rs, self), k.transform(k.transform(bases[self], world), identity), identity);
        if old(geometryModel).Some? && !old(isDirty) then
          r == Ok(old(geometryModel).value) && globals.globalProperty == old(globals.globalProperty)
        else
          r == o.geometry && globals.globalProperty == old(globals.globalProperty) + o.log
      ensures isDirty == old(isDirty) && geometryElement == old(geometryElement) && geometryWorld == old(geometryWorld)
    {
      if geometryModel.None? || isDirty {
        var m := ComputeGeometryModel(k, globals, rs, bases, self, world, identity);
        if m.Err? {
          return Err(m.error);
        }
        geometryModel := Some(m.value);
      }
      r := Ok(geometryModel.value);
    }

    /**
     * The geometry_world getter as written: with an empty cache it calls
     * compute_geometry_world, whose `self.geometry_model` getter may
     * recompute and raise that computation's exception; otherwise
     * `.copy()` is a call on the None the getter returns, so it raises
     * AttributeError. With a filled cache (nothing in the class fills it)
     * it returns None.
     */
    method GeometryWorldAsWritten<P, X>(k: Kernel<G, P, X>, globals: Globals<G, P>, rs: seq<Interaction>, bases: seq<G>,
                                        self: nat, world: X, identity: X) returns (r: Result<Option<G>>)
      requires self < |bases|
      modifies this, globals
      ensures old(geometryWorld).None? ==> r.Err?
      ensures old(geometryWorld).None? && (old(geometryModel).Some? && !old(isDirty)) ==> r == Err(AttributeError)
      ensures var o := Apply(k, old(globals.debug), bases, AppliedCuts(rs, self), k.transform(k.transform(bases[self], world), identity), identity);
        old(geometryWorld).None? ==>
          r == if (old(geometryModel).None? || old(isDirty)) && o.geometry.Err? then Err(o.geometry.error) else Err(AttributeError)
      ensures old(geometryWorld).Some? ==> r == Ok(None)
      ensures geometryWorld == old(geometryWorld) && isDirty == old(isDirty) && geometryElement == old(geometryElement)
      ensures globals.debug == old(globals.debug)
    {
      if geometryWorld.None? {
        var m := GeometryModelAsWritten(k, globals, rs, bases, self, world, identity);
        if m.Err? {
          return Err(m.error);
        }
        // m.value is None: None.copy() raises.
        return Err(AttributeError);
      }
      r := Ok(None);
    }

    /**
     * The geometry_world getter as intended: the model geometry moved from
     * the model frame to WorldXY, cached.
     */
    method GeometryWorld<P, X>(k: Kernel<G, P, X>, globals: Globals<G, P>, rs: seq<Interaction>, bases: seq<G>,
                               self: nat, world: X, identity: X, toWorldXY: X) returns (r: Result<G>)
      requires self < |bases|
      modifies this, globals
      ensures old(geometryWorld).Some? ==> r == Ok(old(geometryWorld).value) && geometryModel == old(geometryModel)
      ensures old(geometryWorld).None? && old(geometryModel).Some? && !old(isDirty) ==>
        r == Ok(k.transform(old(geometryModel).value, toWorldXY))
      ensures old(geometryWorld).None? && r.Ok? ==> geometryModel.Some? && r.value == k.transform(geometryModel.value, toWorldXY)
      ensures r.Ok? ==> geometryWorld == Some(r.value)
      ensures isDirty == old(isDirty) && geometryElement == old(geometryElement)
      ensures globals.debug == old(globals.debug)
    {
      if geometryWorld.None? {
        var m := GeometryModel(k, globals, rs, bases, self, world, identity);
        if m.Err? {
          return Err(m.error);
        }
        geometryWorld := Some(k.transform(m.value, toWorldXY));
      }
      r := Ok(geometryWorld.value);
    }
  }
}
