/**
 * The add_modifier dispatch of CableElement (elements/cable.py): the
 * handler is looked up by a name made from the target's direct subclass
 * of Element.
 */
module CableDispatch {
  import opened Base
  import opened PyStrings

  /** A modifier of compas_model: only the boolean difference appears here. */
  datatype Modifier<G> = BooleanModifier(geometry: G)

  /** "_add_modifier_with_" and the class name in lower case with every "element" removed. */
  function HandlerName(className: string): string
  {
    "_add_modifier_with_" + RemoveAll(Lower(className), "element")
  }

  /** The _add_modifier_with_* methods a CableElement has. */
  const CableHandlers: set<string> := {"_add_modifier_with_beam"}

  /**
   * The walk up the first bases from chain[i]: the position of the class
   * whose first base is Element, or the IndexError of `__bases__[0]` once
   * the walk reaches object, which has no base.
   */
  function ElementSubclass(chain: seq<string>, i: nat): (r: Result<nat>)
    requires i < |chain|
    ensures r.Ok? ==> i <= r.value && r.value + 1 < |chain| && chain[r.value + 1] == "Element" &&
                      forall j :: i < j <= r.value ==> chain[j] != "Element"
    ensures r.Err? <==> forall j :: i < j < |chain| ==> chain[j] != "Element"
    ensures r.Err? ==> r.error == IndexError
    decreases |chain| - i
  {
    if i + 1 == |chain| then Err(IndexError)
    else if chain[i + 1] == "Element" then Ok(i)
    else ElementSubclass(chain, i + 1)
  }

  /** The while loop of add_modifier. */
  method FindElementSubclass(chain: seq<string>) returns (r: Result<nat>)
    requires |chain| > 0
    ensures r == ElementSubclass(chain, 0)
  {
    var i := 0;
    while true
      invariant 0 <= i < |chain|
      invariant ElementSubclass(chain, i) == ElementSubclass(chain, 0)
      decreases |chain| - i
    {
      if i + 1 == |chain| {
        return Err(IndexError);
      }
      if chain[i + 1] == "Element" {
        return Ok(i);
      }
      i := i + 1;
    }
  }

  /**
   * add_modifier as written: with no handler, the raise line calls the
   * `type` parameter, a string, and so raises TypeError.
   */
  function DispatchAsWritten<G>(chain: seq<string>, geometry: G): Result<Modifier<G>>
    requires |chain| > 0
  {
    match ElementSubclass(chain, 0)
    case Err(e) => Err(e)
    case Ok(i) => if HandlerName(chain[i]) in CableHandlers then Ok(BooleanModifier(geometry)) else Err(TypeError)
  }

  /** add_modifier as intended: with no handler it raises ValueError. */
  function Dispatch<G>(chain: seq<string>, geometry: G): (r: Result<Modifier<G>>)
    requires |chain| > 0
    ensures r.Ok? <==> ElementSubclass(chain, 0).Ok? && HandlerName(chain[ElementSubclass(chain, 0).value]) in CableHandlers
    ensures r.Ok? ==> r.value == BooleanModifier(geometry)
    ensures r.Err? ==> r.error == IndexError || r.error == ValueError
  {
    match ElementSubclass(chain, 0)
    case Err(e) => Err(e)
    case Ok(i) => if HandlerName(chain[i]) in CableHandlers then Ok(BooleanModifier(geometry)) else Err(ValueError)
  }

  /**
   * The two agree except on a target with no handler, where the code as
   * written raises TypeError instead of the ValueError it builds.
   */
  lemma DispatchDiffers<G>(chain: seq<string>, geometry: G)
    requires |chain| > 0
    ensures var found := ElementSubclass(chain, 0);
      if found.Ok? && HandlerName(chain[found.value]) !in CableHandlers then
        DispatchAsWritten(chain, geometry) == Err(TypeError) && Dispatch(chain, geometry) == Err(ValueError)
      else
        DispatchAsWritten(chain, geometry) == Dispatch(chain, geometry)
  {
  }

  /** Lower-casing, character by character. */
  lemma LowerIs(s: string, t: string)
    requires |s| == |t| && forall i :: 0 <= i < |s| ==> LowerChar(s[i]) == t[i]
    ensures Lower(s) == t
  {
  }

  /** "BeamElement" names the handler "_add_modifier_with_beam". */
  lemma BeamHandlerName(name: string, e: string)
    requires name == "BeamElement" && e == "element"
    ensures HandlerName(name) == "_add_modifier_with_beam"
  {
    var lower := Lower(name);
    assert lower == ['b', 'e', 'a', 'm'] + e by { LowerIs(name, ['b', 'e', 'a', 'm'] + e); }
    assert RemoveAll(lower, e) == "beam" by { RemoveElementFromBeam(e); }
  }

  /** "BlockElement" names "_add_modifier_with_block", which a cable does not have. */
  lemma BlockHandlerName(name: string, e: string)
    requires name == "BlockElement" && e == "element"
    ensures HandlerName(name) == "_add_modifier_with_block"
    ensures HandlerName(name) !in CableHandlers
  {
    var lower := Lower(name);
    assert lower == ['b', 'l', 'o', 'c', 'k'] + e by { LowerIs(name, ['b', 'l', 'o', 'c', 'k'] + e); }
    assert RemoveAll(lower, e) == "block" by { RemoveElementFromBlock(e); }
    assert HandlerName(name) == "_add_modifier_with_" + "block";
    assert HandlerName(name)[20] != "_add_modifier_with_beam"[20];
  }

  /** A block target: its handler is missing, so as written the call raises TypeError. */
  lemma BlockTargetAsWritten<G>(chain: seq<string>, geometry: G)
    requires chain == ["BlockElement", "Element", "Data", "object"]
    ensures DispatchAsWritten(chain, geometry) == Err(TypeError)
    ensures Dispatch(chain, geometry) == Err(ValueError)
  {
    assert ElementSubclass(chain, 0) == Ok(0);
    BlockHandlerName(chain[0], "element");
  }

  /**
   * A T-profile beam: the walk stops at BeamElement, whose handler the
   * cable has, and the result is the boolean difference by the cable's
   * geometry.
   */
  lemma TProfileTarget<G>(chain: seq<string>, geometry: G)
    requires chain == ["BeamTProfileElement", "BeamElement", "Element", "Data", "object"]
    ensures Dispatch(chain, geometry) == Ok(BooleanModifier(geometry))
  {
    assert chain[1] != "Element";
    assert ElementSubclass(chain, 1) == Ok(1);
    BeamHandlerName(chain[1], "element");
  }
}
