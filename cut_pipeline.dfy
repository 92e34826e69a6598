/**
 * How an element's model geometry is computed (BaseElement in
 * elements/element.py): starting from its own geometry, every interface
 * interaction that arrives at the element from a neighbour is applied in
 * neighbour order, each one given the neighbour's base geometry as the
 * cutter. InteractionInterfaceCutter slices with the cutter's plane and
 * keeps the first piece; a failed slice keeps the geometry and, in debug
 * mode, logs the plane and the mesh to compas_grid.global_property.
 *
 * Geometry, planes and transformations are type parameters; the geometry
 * kernel (Plane.from_frame, transformations, Mesh.slice, the boolean
 * difference) is a record of functions.
 */
module CutPipeline {
  import opened Base
  import opened ModelGraph

  /** The kernel calls the pipeline makes; an Err is an exception the call raises. */
  datatype Kernel<!G, !P, !X> = Kernel(
    /** Plane.from_frame applied to a cutter's geometry. */
    planeOf: G -> Result<P>,
    /** plane.transform(x) */
    transformPlane: (P, X) -> P,
    /** geometry.transformed(x), and copy() followed by transform(x) */
    transform: (G, X) -> G,
    /** mesh.slice(plane): the pieces; none when the plane misses the mesh. */
    slice: (G, P) -> Result<seq<G>>,
    /** InteractionInterfaceBooleanDifference.compute_interaction(cutter, target, x) */
    difference: (G, G, X) -> Result<Option<G>>)

  /** An entry of compas_grid.global_property. */
  datatype Logged<G, P> = LoggedPlane(plane: P) | LoggedMesh(mesh: G)

  /** The module globals compas_grid.debug and compas_grid.global_property. */
  class Globals<G, P> {
    var debug: bool
    var globalProperty: seq<Logged<G, P>>

    constructor (debug: bool)
      ensures this.debug == debug && globalProperty == []
    {
      this.debug := debug;
      globalProperty := [];
    }
  }

  // ---------------------------------------------------------------------
  // InteractionInterfaceCutter.compute_interaction
  // ---------------------------------------------------------------------

  /** `if split_meshes: return split_meshes[0]`, and None otherwise. */
  function FirstPiece<G>(pieces: seq<G>): (r: Option<G>)
    ensures r.Some? <==> |pieces| > 0
    ensures r.Some? ==> r.value == pieces[0]
  {
    if |pieces| > 0 then Some(pieces[0]) else None
  }

  /** The slicing plane: the cutter's plane moved by xform. */
  function SlicePlane<G, P, X>(k: Kernel<G, P, X>, cutter: G, x: X): Result<P>
  {
    match k.planeOf(cutter)
    case Err(e) => Err(e)
    case Ok(p) => Ok(k.transformPlane(p, x))
  }

  /**
   * The result of compute_interaction. Plane.from_frame is outside the try,
   * so its exception propagates; a slice that raises is caught and the
   * result is None; otherwise the first piece, or None when there is none.
   */
  function CutterOutcome<G, P, X>(k: Kernel<G, P, X>, cutter: G, target: G, x: X): (r: Result<Option<G>>)
    ensures r.Err? <==> k.planeOf(cutter).Err?
    ensures r.Err? ==> r.error == k.planeOf(cutter).error
    ensures r.Ok? ==>
      var plane := k.transformPlane(k.planeOf(cutter).value, x);
      r.value == (if k.slice(target, plane).Ok? then FirstPiece(k.slice(target, plane).value) else None)
  {
    match SlicePlane(k, cutter, x)
    case Err(e) => Err(e)
    case Ok(plane) =>
      match k.slice(target, plane)
      case Err(_) => Ok(None)
      case Ok(pieces) => Ok(FirstPiece(pieces))
  }

  /** What compute_interaction appends to global_property: the plane, then the mesh, after a failed slice in debug mode. */
  function CutterLog<G, P, X>(k: Kernel<G, P, X>, debug: bool, cutter: G, target: G, x: X): (l: seq<Logged<G, P>>)
    ensures |l| == 0 || |l| == 2
    ensures |l| == 2 <==> debug && k.planeOf(cutter).Ok? && k.slice(target, SlicePlane(k, cutter, x).value).Err?
    ensures |l| == 2 ==> l == [LoggedPlane(SlicePlane(k, cutter, x).value), LoggedMesh(target)]
  {
    match SlicePlane(k, cutter, x)
    case Err(_) => []
    case Ok(plane) => if debug && k.slice(target, plane).Err? then [LoggedPlane(plane), LoggedMesh(target)] else []
  }

  /** InteractionInterfaceCutter.compute_interaction(geometry_cutter, geometry_to_modify, xform) */
  method ComputeCutterInteraction<G, P, X>(k: Kernel<G, P, X>, globals: Globals<G, P>, cutter: G, target: G, x: X)
    returns (r: Result<Option<G>>)
    modifies globals
    ensures globals.debug == old(globals.debug)
    ensures r == CutterOutcome(k, cutter, target, x)
    ensures globals.globalProperty == old(globals.globalProperty) + CutterLog(k, globals.debug, cutter, target, x)
  {
    var frame := k.planeOf(cutter);
    if frame.Err? {
      return Err(frame.error);
    }
    var plane := k.transformPlane(frame.value, x);
    var pieces := k.slice(target, plane);
    if pieces.Err? {
      if globals.debug {
        globals.globalProperty := globals.globalProperty + [LoggedPlane(plane)];
        globals.globalProperty := globals.globalProperty + [LoggedMesh(target)];
      }
      return Ok(None);
    }
    r := Ok(FirstPiece(pieces.value));
  }

  // ---------------------------------------------------------------------
  // Which interactions reach an element
  // ---------------------------------------------------------------------

  /** The InteractionInterface instances among ks, in order. */
  function Interfaces(ks: seq<Kind>): (r: seq<Kind>)
    ensures forall kind :: kind in r <==> kind in ks && IsInterface(kind)
    ensures |r| <= |ks|
  {
    if ks == [] then []
    else (if IsInterface(ks[0]) then [ks[0]] else []) + Interfaces(ks[1..])
  }

  /**
   * The interactions the loop body applies for neighbour n: the edge is
   * read as self -> n when that edge exists, and then skipped; otherwise
   * the interface interactions of n -> self, in the order they were added.
   */
  function CutsFrom(rs: seq<Interaction>, self: nat, n: nat): seq<Kind>
  {
    var edge := if HasEdge(rs, self, n) then (self, n) else (n, self);
    if edge.0 == self then [] else Interfaces(EdgeKinds(rs, edge.0, edge.1))
  }

  function Tag(n: nat, ks: seq<Kind>): (r: seq<(nat, Kind)>)
    ensures |r| == |ks| && forall i :: 0 <= i < |ks| ==> r[i] == (n, ks[i])
  {
    seq(|ks|, i requires 0 <= i < |ks| => (n, ks[i]))
  }

  /** The (neighbour, interaction) pairs the neighbour loop applies, in order. */
  function Cuts(rs: seq<Interaction>, self: nat, ns: seq<nat>): seq<(nat, Kind)>
    decreases |ns|
  {
    if ns == [] then [] else Tag(ns[0], CutsFrom(rs, self, ns[0])) + Cuts(rs, self, ns[1..])
  }

  /** Every interaction an element applies, in the order it applies them. */
  function AppliedCuts(rs: seq<Interaction>, self: nat): seq<(nat, Kind)>
  {
    Cuts(rs, self, Neighbors(rs, self))
  }

  lemma {:induction false} CutsListed(rs: seq<Interaction>, self: nat, ns: seq<nat>)
    ensures forall c :: c in Cuts(rs, self, ns) <==> c.0 in ns && c.1 in CutsFrom(rs, self, c.0)
    decreases |ns|
  {
    if ns != [] {
      CutsListed(rs, self, ns[1..]);
      var t := Tag(ns[0], CutsFrom(rs, self, ns[0]));
      forall c
        ensures c in t <==> c.0 == ns[0] && c.1 in CutsFrom(rs, self, ns[0])
      {
        if c.0 == ns[0] && c.1 in CutsFrom(rs, self, ns[0]) {
          var i :| 0 <= i < |CutsFrom(rs, self, ns[0])| && CutsFrom(rs, self, ns[0])[i] == c.1;
          assert t[i] == c;
        }
      }
      assert forall w :: w in ns <==> w == ns[0] || w in ns[1..];
    }
  }

  /**
   * An element applies exactly the interface interactions filed under an
   * edge n -> self, for the n it has no edge self -> n to: only incoming
   * edges cut, plain interactions are inert, and an incoming cut is
   * ignored when the outgoing edge exists as well.
   */
  lemma AppliedCutsCharacterised(rs: seq<Interaction>, self: nat)
    ensures forall c :: c in AppliedCuts(rs, self) <==>
      !HasEdge(rs, self, c.0) && IsInterface(c.1) && Interaction(c.0, self, c.1) in rs
  {
    var ns := Neighbors(rs, self);
    CutsListed(rs, self, ns);
    NeighborsAreAdjacent(rs, self);
    forall c
      ensures c in AppliedCuts(rs, self) <==> !HasEdge(rs, self, c.0) && IsInterface(c.1) && Interaction(c.0, self, c.1) in rs
    {
      EdgeKindsListed(rs, c.0, self);
      if Interaction(c.0, self, c.1) in rs {
        var i :| 0 <= i < |rs| && rs[i] == Interaction(c.0, self, c.1);
        assert HasEdge(rs, c.0, self);
      }
      if !HasEdge(rs, self, c.0) && c.0 == self {
        assert CutsFrom(rs, self, c.0) == [];
      }
    }
  }

  lemma Listed(rs: seq<Interaction>, r: Interaction)
    requires r in rs
    ensures HasEdge(rs, r.source, r.target)
  {
    var i :| 0 <= i < |rs| && rs[i] == r;
  }

  /** An element never applies an interaction of its own. */
  lemma NeverSelf(rs: seq<Interaction>, self: nat)
    ensures forall c :: c in AppliedCuts(rs, self) ==> c.0 != self
  {
    AppliedCutsCharacterised(rs, self);
    forall c | c in AppliedCuts(rs, self)
      ensures c.0 != self
    {
      Listed(rs, Interaction(c.0, self, c.1));
    }
  }

  // ---------------------------------------------------------------------
  // Applying them
  // ---------------------------------------------------------------------

  /** interaction.compute_interaction(elements[neighbor].geometry, geometry_to_modify, xform) */
  function InteractionOutcome<G, P, X>(k: Kernel<G, P, X>, kind: Kind, cutter: G, target: G, x: X): Result<Option<G>>
    requires IsInterface(kind)
  {
    if kind.InterfaceCutter? then CutterOutcome(k, cutter, target, x) else k.difference(cutter, target, x)
  }

  function InteractionLog<G, P, X>(k: Kernel<G, P, X>, debug: bool, kind: Kind, cutter: G, target: G, x: X): seq<Logged<G, P>>
  {
    if kind.InterfaceCutter? then CutterLog(k, debug, cutter, target, x) else []
  }

  /** The dispatch to the interaction's own compute_interaction. */
  method ComputeInteraction<G, P, X>(k: Kernel<G, P, X>, globals: Globals<G, P>, kind: Kind, cutter: G, target: G, x: X)
    returns (r: Result<Option<G>>)
    requires IsInterface(kind)
    modifies globals
    ensures globals.debug == old(globals.debug)
    ensures r == InteractionOutcome(k, kind, cutter, target, x)
    ensures globals.globalProperty == old(globals.globalProperty) + InteractionLog(k, globals.debug, kind, cutter, target, x)
  {
    if kind.InterfaceCutter? {
      r := ComputeCutterInteraction(k, globals, cutter, target, x);
    } else {
      r := k.difference(cutter, target, x);
    }
  }

  /** The geometry a loop ends with (or the exception it stops at), and what it logged. */
  datatype Outcome<G, P> = Outcome(geometry: Result<G>, log: seq<Logged<G, P>>)

  function Prepend<G, P>(log: seq<Logged<G, P>>, o: Outcome<G, P>): Outcome<G, P>
  {
    Outcome(o.geometry, log + o.log)
  }

  /**
   * One pass of the innermost loop body: an interaction that is not an
   * InteractionInterface is passed over; otherwise the neighbour's base
   * geometry is looked up and the interaction computed, and a falsy
   * result keeps the current geometry.
   */
  function Step<G, P, X>(k: Kernel<G, P, X>, debug: bool, bases: seq<G>, n: nat, kind: Kind, g: G, x: X): Outcome<G, P>
  {
    if !IsInterface(kind) then Outcome(Ok(g), [])
    else if n >= |bases| then Outcome(Err(IndexError), [])
    else
      var log := InteractionLog(k, debug, kind, bases[n], g, x);
      match InteractionOutcome(k, kind, bases[n], g, x)
      case Err(e) => Outcome(Err(e), log)
      case Ok(r) => Outcome(Ok(if r.Some? then r.value else g), log)
  }

  /** The inner loop: the interactions of one edge, applied in order. */
  function ApplyKinds<G, P, X>(k: Kernel<G, P, X>, debug: bool, bases: seq<G>, n: nat, ks: seq<Kind>, g: G, x: X): Outcome<G, P>
    decreases |ks|
  {
    if ks == [] then Outcome(Ok(g), [])
    else
      var s := Step(k, debug, bases, n, ks[0], g, x);
      if s.geometry.Err? then s else Prepend(s.log, ApplyKinds(k, debug, bases, n, ks[1..], s.geometry.value, x))
  }

  /** One pass of the outer loop body: neighbour n is skipped when the edge runs self -> n. */
  function NeighbourOutcome<G, P, X>(k: Kernel<G, P, X>, debug: bool, bases: seq<G>, rs: seq<Interaction>, self: nat,
                                     n: nat, g: G, x: X): Outcome<G, P>
  {
    var edge := if HasEdge(rs, self, n) then (self, n) else (n, self);
    if edge.0 == self then Outcome(Ok(g), [])
    else ApplyKinds(k, debug, bases, n, EdgeKinds(rs, edge.0, edge.1), g, x)
  }

  /** The outer loop: the neighbours in graph order. */
  function ApplyNeighbours<G, P, X>(k: Kernel<G, P, X>, debug: bool, bases: seq<G>, rs: seq<Interaction>, self: nat,
                                    ns: seq<nat>, g: G, x: X): Outcome<G, P>
    decreases |ns|
  {
    if ns == [] then Outcome(Ok(g), [])
    else
      var o := NeighbourOutcome(k, debug, bases, rs, self, ns[0], g, x);
      if o.geometry.Err? then o else Prepend(o.log, ApplyNeighbours(k, debug, bases, rs, self, ns[1..], o.geometry.value, x))
  }

  /**
   * The reference fold: the (neighbour, interaction) pairs one after the
   * other, each result replacing the geometry, stopping at an exception.
   */
  function Apply<G, P, X>(k: Kernel<G, P, X>, debug: bool, bases: seq<G>, cuts: seq<(nat, Kind)>, g: G, x: X): Outcome<G, P>
    decreases |cuts|
  {
    if cuts == [] then Outcome(Ok(g), [])
    else
      var s := Step(k, debug, bases, cuts[0].0, cuts[0].1, g, x);
      if s.geometry.Err? then s else Prepend(s.log, Apply(k, debug, bases, cuts[1..], s.geometry.value, x))
  }

  /** Folding over a + b folds over a, then over b from where a stopped. */
  lemma {:induction false} ApplyAppend<G, P, X>(k: Kernel<G, P, X>, debug: bool, bases: seq<G>, a: seq<(nat, Kind)>, b: seq<(nat, Kind)>, g: G, x: X)
    ensures var o := Apply(k, debug, bases, a, g, x);
      Apply(k, debug, bases, a + b, g, x) ==
        if o.geometry.Err? then o else Prepend(o.log, Apply(k, debug, bases, b, o.geometry.value, x))
    decreases |a|
  {
    if a == [] {
      assert a + b == b;
    } else {
      var s := Step(k, debug, bases, a[0].0, a[0].1, g, x);
      assert Apply(k, debug, bases, a + b, g, x) ==
        if s.geometry.Err? then s else Prepend(s.log, Apply(k, debug, bases, a[1..] + b, s.geometry.value, x)) by {
        assert (a + b)[0] == a[0] && (a + b)[1..] == a[1..] + b;
      }
      if s.geometry.Ok? {
        var g1 := s.geometry.value;
        ApplyAppend(k, debug, bases, a[1..], b, g1, x);
        var o1 := Apply(k, debug, bases, a[1..], g1, x);
        if o1.geometry.Ok? {
          var rest := Apply(k, debug, bases, b, o1.geometry.value, x);
          assert s.log + (o1.log + rest.log) == (s.log + o1.log) + rest.log;
        }
      }
    }
  }

  /** The inner loop applies exactly the interface interactions of its edge. */
  lemma {:induction false} ApplyKindsIsApply<G, P, X>(k: Kernel<G, P, X>, debug: bool, bases: seq<G>, n: nat, ks: seq<Kind>, g: G, x: X)
    ensures ApplyKinds(k, debug, bases, n, ks, g, x) == Apply(k, debug, bases, Tag(n, Interfaces(ks)), g, x)
    decreases |ks|
  {
    if ks != [] {
      var s := Step(k, debug, bases, n, ks[0], g, x);
      var rest := Interfaces(ks[1..]);
      if IsInterface(ks[0]) {
        assert Interfaces(ks) == [ks[0]] + rest;
        var t := Tag(n, Interfaces(ks));
        assert t[0] == (n, ks[0]) && t[1..] == Tag(n, rest);
        if s.geometry.Ok? {
          ApplyKindsIsApply(k, debug, bases, n, ks[1..], s.geometry.value, x);
        }
      } else {
        assert Interfaces(ks) == rest;
        assert s == Outcome(Ok(g), []);
        ApplyKindsIsApply(k, debug, bases, n, ks[1..], g, x);
      }
    }
  }

  /** The two nested loops compute the reference fold over the pairs Cuts lists. */
  lemma {:induction false} ApplyNeighboursIsApply<G, P, X>(k: Kernel<G, P, X>, debug: bool, bases: seq<G>, rs: seq<Interaction>,
                                                          self: nat, ns: seq<nat>, g: G, x: X)
    ensures ApplyNeighbours(k, debug, bases, rs, self, ns, g, x) == Apply(k, debug, bases, Cuts(rs, self, ns), g, x)
    decreases |ns|
  {
    if ns != [] {
      var n := ns[0];
      var t := Tag(n, CutsFrom(rs, self, n));
      var rest := Cuts(rs, self, ns[1..]);
      ApplyAppend(k, debug, bases, t, rest, g, x);
      var edge := if HasEdge(rs, self, n) then (self, n) else (n, self);
      if edge.0 == self {
        assert t == [];
        ApplyNeighboursIsApply(k, debug, bases, rs, self, ns[1..], g, x);
        PrependNothing(ApplyNeighbours(k, debug, bases, rs, self, ns[1..], g, x));
      } else {
        ApplyKindsIsApply(k, debug, bases, n, EdgeKinds(rs, edge.0, edge.1), g, x);
        var o := Apply(k, debug, bases, t, g, x);
        if o.geometry.Ok? {
          ApplyNeighboursIsApply(k, debug, bases, rs, self, ns[1..], o.geometry.value, x);
        }
      }
    }
  }

  /** The fold reads the base geometry of the cutting neighbours only. */
  lemma {:induction false} ApplyReadsCutters<G, P, X>(k: Kernel<G, P, X>, debug: bool, bases: seq<G>, bases2: seq<G>,
                                                      cuts: seq<(nat, Kind)>, g: G, x: X)
    requires |bases| == |bases2|
    requires forall i :: 0 <= i < |cuts| && cuts[i].0 < |bases| ==> bases[cuts[i].0] == bases2[cuts[i].0]
    ensures Apply(k, debug, bases, cuts, g, x) == Apply(k, debug, bases2, cuts, g, x)
    decreases |cuts|
  {
    if cuts != [] {
      var s := Step(k, debug, bases, cuts[0].0, cuts[0].1, g, x);
      assert s == Step(k, debug, bases2, cuts[0].0, cuts[0].1, g, x);
      if s.geometry.Ok? {
        ApplyReadsCutters(k, debug, bases, bases2, cuts[1..], s.geometry.value, x);
      }
    }
  }

  /** An element no interface interaction is filed towards keeps its geometry and logs nothing. */
  lemma NoCutsKeep<G, P, X>(k: Kernel<G, P, X>, debug: bool, bases: seq<G>, rs: seq<Interaction>, self: nat, g: G, x: X)
    requires forall r :: r in rs ==> r.target != self || !IsInterface(r.kind)
    ensures AppliedCuts(rs, self) == []
    ensures Apply(k, debug, bases, AppliedCuts(rs, self), g, x) == Outcome(Ok(g), [])
  {
    AppliedCutsCharacterised(rs, self);
    Uncons(AppliedCuts(rs, self));
  }

  /** One pass of the inner loop body. */
  method ApplyOne<G, P, X>(k: Kernel<G, P, X>, globals: Globals<G, P>, bases: seq<G>, n: nat, kind: Kind, g: G, x: X)
    returns (r: Result<G>)
    modifies globals
    ensures globals.debug == old(globals.debug)
    ensures var s := Step(k, globals.debug, bases, n, kind, g, x);
      r == s.geometry && globals.globalProperty == old(globals.globalProperty) + s.log
  {
    if !IsInterface(kind) {
      return Ok(g);
    }
    if n >= |bases| {
      return Err(IndexError);
    }
    var result := ComputeInteraction(k, globals, kind, bases[n], g, x);
    StepIs(k, globals.debug, bases, n, kind, g, x, result);
    if result.Err? {
      return Err(result.error);
    }
    r := if result.value.Some? then Ok(result.value.value) else Ok(g);
  }

  /** The inner loop over graph.edge_interactions(edge), cutting with neighbour n. */
  method ApplyEdge<G, P, X>(k: Kernel<G, P, X>, globals: Globals<G, P>, bases: seq<G>, n: nat, ks: seq<Kind>, start: G, x: X)
    returns (r: Result<G>)
    modifies globals
    ensures globals.debug == old(globals.debug)
    ensures var o := ApplyKinds(k, globals.debug, bases, n, ks, start, x);
      r == o.geometry && globals.globalProperty == old(globals.globalProperty) + o.log
  {
    ghost var debug := globals.debug;
    ghost var logged: seq<Logged<G, P>> := [];
    var g := start;
    var j := 0;
    ghost var whole := ApplyKinds(k, debug, bases, n, ks, start, x);
    assert ks[j..] == ks;
    PrependNothing(whole);
    while j < |ks|
      invariant 0 <= j <= |ks|
      invariant globals.debug == debug
      invariant globals.globalProperty == old(globals.globalProperty) + logged
      invariant whole == Prepend(logged, ApplyKinds(k, debug, bases, n, ks[j..], g, x))
    {
      ghost var rest := ApplyKinds(k, debug, bases, n, ks[j..], g, x);
      ghost var s := Step(k, debug, bases, n, ks[j], g, x);
      ApplyKindsUnfold(k, debug, bases, n, ks, j, g, x);
      var result := ApplyOne(k, globals, bases, n, ks[j], g, x);
      if result.Err? {
        Advance(whole, logged, rest, s, Outcome(Ok(g), []));
        return result;
      }
      Advance(whole, logged, rest, s, ApplyKinds(k, debug, bases, n, ks[j + 1..], result.value, x));
      logged := logged + s.log;
      g := result.value;
      j := j + 1;
    }
    r := Ok(g);
  }

  /** One step of a fold seen from its start: the log so far grows by the step's own. */
  lemma Advance<G, P>(whole: Outcome<G, P>, logged: seq<Logged<G, P>>, rest: Outcome<G, P>, s: Outcome<G, P>, next: Outcome<G, P>)
    requires whole == Prepend(logged, rest)
    requires rest == if s.geometry.Err? then s else Prepend(s.log, next)
    ensures s.geometry.Err? ==> whole.geometry == s.geometry && whole.log == logged + s.log
    ensures s.geometry.Ok? ==> whole == Prepend(logged + s.log, next)
  {
    if s.geometry.Ok? {
      assert logged + (s.log + next.log) == (logged + s.log) + next.log;
    }
  }

  lemma PrependNothing<G, P>(o: Outcome<G, P>)
    ensures Prepend([], o) == o
  {
    assert [] + o.log == o.log;
  }

  lemma StepIs<G, P, X>(k: Kernel<G, P, X>, debug: bool, bases: seq<G>, n: nat, kind: Kind, g: G, x: X, result: Result<Option<G>>)
    requires IsInterface(kind) && n < |bases| && result == InteractionOutcome(k, kind, bases[n], g, x)
    ensures Step(k, debug, bases, n, kind, g, x) ==
      Outcome(if result.Err? then Err(result.error) else Ok(if result.value.Some? then result.value.value else g),
              InteractionLog(k, debug, kind, bases[n], g, x))
  {
  }

  lemma ApplyKindsUnfold<G, P, X>(k: Kernel<G, P, X>, debug: bool, bases: seq<G>, n: nat, ks: seq<Kind>, j: nat, g: G, x: X)
    requires j < |ks|
    ensures var s := Step(k, debug, bases, n, ks[j], g, x);
      ApplyKinds(k, debug, bases, n, ks[j..], g, x) ==
        if s.geometry.Err? then s else Prepend(s.log, ApplyKinds(k, debug, bases, n, ks[j + 1..], s.geometry.value, x))
  {
    assert ks[j..][0] == ks[j] && ks[j..][1..] == ks[j + 1..];
  }

  /** The outer fold advanced past neighbour ns[i]. */
  lemma NeighboursAdvance<G, P, X>(k: Kernel<G, P, X>, debug: bool, bases: seq<G>, rs: seq<Interaction>, self: nat,
                                   ns: seq<nat>, i: nat, g: G, x: X, whole: Outcome<G, P>, logged: seq<Logged<G, P>>)
    requires i < |ns| && whole == Prepend(logged, ApplyNeighbours(k, debug, bases, rs, self, ns[i..], g, x))
    ensures var o := NeighbourOutcome(k, debug, bases, rs, self, ns[i], g, x);
      (o.geometry.Err? ==> whole.geometry == o.geometry && whole.log == logged + o.log) &&
      (o.geometry.Ok? ==> whole == Prepend(logged + o.log, ApplyNeighbours(k, debug, bases, rs, self, ns[i + 1..], o.geometry.value, x)))
  {
    assert ns[i..][0] == ns[i] && ns[i..][1..] == ns[i + 1..];
    var o := NeighbourOutcome(k, debug, bases, rs, self, ns[i], g, x);
    var next := if o.geometry.Err? then Outcome(Ok(g), []) else ApplyNeighbours(k, debug, bases, rs, self, ns[i + 1..], o.geometry.value, x);
    Advance(whole, logged, ApplyNeighbours(k, debug, bases, rs, self, ns[i..], g, x), o, next);
  }

  /** One pass of the outer loop body. */
  method ApplyNeighbour<G, P, X>(k: Kernel<G, P, X>, globals: Globals<G, P>, bases: seq<G>, rs: seq<Interaction>, self: nat,
                                  n: nat, g: G, x: X) returns (r: Result<G>)
    modifies globals
    ensures globals.debug == old(globals.debug)
    ensures var o := NeighbourOutcome(k, globals.debug, bases, rs, self, n, g, x);
      r == o.geometry && globals.globalProperty == old(globals.globalProperty) + o.log
  {
    var edge := if HasEdge(rs, self, n) then (self, n) else (n, self);
    if edge.0 == self {
      return Ok(g);
    }
    r := ApplyEdge(k, globals, bases, n, EdgeKinds(rs, edge.0, edge.1), g, x);
  }

  /**
   * The neighbour loop shared by compute_geometry_model and
   * compute_interactions, run from `start` with transformation x.
   */
  method ApplyInteractions<G, P, X>(k: Kernel<G, P, X>, globals: Globals<G, P>, rs: seq<Interaction>, bases: seq<G>,
                                     self: nat, start: G, x: X) returns (r: Result<G>)
    modifies globals
    ensures globals.debug == old(globals.debug)
    ensures var o := ApplyNeighbours(k, globals.debug, bases, rs, self, Neighbors(rs, self), start, x);
      r == o.geometry && globals.globalProperty == old(globals.globalProperty) + o.log
  {
    r := ApplyEach(k, globals, rs, bases, self, Neighbors(rs, self), start, x);
  }

  /** The loop over graph.neighbors(self.graph_node), given as ns. */
  method ApplyEach<G, P, X>(k: Kernel<G, P, X>, globals: Globals<G, P>, rs: seq<Interaction>, bases: seq<G>,
                             self: nat, ns: seq<nat>, start: G, x: X) returns (r: Result<G>)
    modifies globals
    ensures globals.debug == old(globals.debug)
    ensures var o := ApplyNeighbours(k, globals.debug, bases, rs, self, ns, start, x);
      r == o.geometry && globals.globalProperty == old(globals.globalProperty) + o.log
  {
    ghost var debug := globals.debug;
    ghost var logged: seq<Logged<G, P>> := [];
    var g := start;
    var i := 0;
    ghost var whole := ApplyNeighbours(k, debug, bases, rs, self, ns, start, x);
    assert ns[i..] == ns;
    PrependNothing(whole);
    while i < |ns|
      invariant 0 <= i <= |ns|
      invariant globals.debug == debug
      invariant globals.globalProperty == old(globals.globalProperty) + logged
      invariant whole == Prepend(logged, ApplyNeighbours(k, debug, bases, rs, self, ns[i..], g, x))
    {
      ghost var o := NeighbourOutcome(k, debug, bases, rs, self, ns[i], g, x);
      ghost var before := globals.globalProperty;
      NeighboursAdvance(k, debug, bases, rs, self, ns, i, g, x, whole, logged);
      var result := ApplyNeighbour(k, globals, bases, rs, self, ns[i], g, x);
      LogStep(old(globals.globalProperty), logged, o.log, before, globals.globalProperty);
      if result.Err? {
        return result;
      }
      logged := logged + o.log;
      g := result.value;
      i := i + 1;
    }
    r := Ok(g);
  }

  /** The log after one more neighbour: what was logged so far, then that neighbour's entries. */
  lemma LogStep<T>(log0: seq<T>, logged: seq<T>, added: seq<T>, before: seq<T>, after: seq<T>)
    requires before == log0 + logged && after == before + added
    ensures after == log0 + (logged + added)
  {
  }

  // ---------------------------------------------------------------------
  // The two entry points
  // ---------------------------------------------------------------------

  /** Every node of the interaction graph is an element of the model. */
  predicate GraphIn(rs: seq<Interaction>, n: nat)
  {
    forall i :: 0 <= i < |rs| ==> rs[i].source < n && rs[i].target < n
  }

  /**
   * BaseElement.compute_geometry_model: the element's geometry moved by
   * its world transformation (then by the identity), with every
   * interaction AppliedCuts lists applied to it.
   */
  method ComputeGeometryModel<G, P, X>(k: Kernel<G, P, X>, globals: Globals<G, P>, rs: seq<Interaction>, bases: seq<G>,
                                        self: nat, world: X, identity: X) returns (r: Result<G>)
    requires self < |bases|
    modifies globals
    ensures globals.debug == old(globals.debug)
    ensures var o := Apply(k, globals.debug, bases, AppliedCuts(rs, self), k.transform(k.transform(bases[self], world), identity), identity);
      r == o.geometry && globals.globalProperty == old(globals.globalProperty) + o.log
  {
    var start := k.transform(bases[self], world);
    start := k.transform(start, identity);
    r := ApplyInteractions(k, globals, rs, bases, self, start, identity);
    ApplyNeighboursIsApply(k, globals.debug, bases, rs, self, Neighbors(rs, self), start, identity);
  }

  /**
   * BaseElement.compute_interactions: a copy of the element's geometry,
   * moved by the inverse world transformation when local_transform is set
   * and by the identity otherwise, with the same interactions applied.
   */
  method ComputeInteractions<G, P, X>(k: Kernel<G, P, X>, globals: Globals<G, P>, rs: seq<Interaction>, bases: seq<G>,
                                       self: nat, localTransform: bool, inverseWorld: X, identity: X) returns (r: Result<G>)
    requires self < |bases|
    modifies globals
    ensures globals.debug == old(globals.debug)
    ensures var x := if localTransform then inverseWorld else identity;
      var o := Apply(k, globals.debug, bases, AppliedCuts(rs, self), k.transform(bases[self], x), x);
      r == o.geometry && globals.globalProperty == old(globals.globalProperty) + o.log
  {
    var x := if localTransform then inverseWorld else identity;
    var start := k.transform(bases[self], x);
    r := ApplyInteractions(k, globals, rs, bases, self, start, x);
    ApplyNeighboursIsApply(k, globals.debug, bases, rs, self, Neighbors(rs, self), start, x);
  }

  /** In a well-formed model no neighbour lookup fails: an exception comes from an interaction itself. */
  lemma {:induction false} NoIndexError<G, P, X>(k: Kernel<G, P, X>, debug: bool, bases: seq<G>, cuts: seq<(nat, Kind)>, g: G, x: X)
    requires forall i :: 0 <= i < |cuts| ==> cuts[i].0 < |bases|
    ensures var o := Apply(k, debug, bases, cuts, g, x);
      o.geometry.Err? ==> exists i, h :: 0 <= i < |cuts| && InteractionFails(k, bases, cuts[i], h, x)
    decreases |cuts|
  {
    if cuts != [] {
      var s := Step(k, debug, bases, cuts[0].0, cuts[0].1, g, x);
      if s.geometry.Err? {
        assert InteractionFails(k, bases, cuts[0], g, x);
      } else {
        NoIndexError(k, debug, bases, cuts[1..], s.geometry.value, x);
        var o := Apply(k, debug, bases, cuts[1..], s.geometry.value, x);
        if o.geometry.Err? {
          var i, h :| 0 <= i < |cuts[1..]| && InteractionFails(k, bases, cuts[1..][i], h, x);
          assert InteractionFails(k, bases, cuts[i + 1], h, x);
        }
      }
    }
  }

  /** The interaction of a pair raises on some geometry. */
  predicate InteractionFails<G, P, X>(k: Kernel<G, P, X>, bases: seq<G>, c: (nat, Kind), h: G, x: X)
  {
    IsInterface(c.1) && c.0 < |bases| && InteractionOutcome(k, c.1, bases[c.0], h, x).Err?
  }
}
