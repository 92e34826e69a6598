/**
 * ColumnHeadCrossElement: a model element that keeps the junction it was
 * built from (v, e, f), its four dimensions and a private copy of the mesh
 * the shared ColumnHeadCrossShape produced for that junction. Elements are
 * values here; the copy of the cached mesh is what makes that faithful.
 */
module ColumnHeadElement {
  import opened Base
  import opened ColumnHeadRules
  import opened ColumnHeadMesh
  import opened ColumnHeadShape

  datatype ColumnHeadCross = ColumnHeadCross(
    v: map<int, Point>,
    e: seq<Edge>,
    f: seq<seq<int>>,
    width: real,
    depth: real,
    height: real,
    offset: real,
    name: string,
    shape: HeadMesh)

  const ClassName: string := "ColumnHeadCrossElement"

  /** The name the constructor keeps: the class name stands in for None and for "None". */
  function ElementName(name: Option<string>): (n: string)
    ensures n == ClassName <==> name == None || name == Some("None") || name == Some(ClassName)
    ensures name.Some? && name.value != "None" ==> n == name.value
    ensures n != "None"
  {
    if name == None || name == Some("None") then ClassName else name.value
  }

  /** A name the constructor produced is kept as it is when passed back in. */
  lemma ElementNameIdempotent(name: Option<string>)
    ensures ElementName(Some(ElementName(name))) == ElementName(name)
  {
  }

  /**
   * ColumnHeadCrossElement(v, e, f, width, depth, height, offset, name): the
   * fields are stored as given, the shared shape object is (re)initialised
   * for the junction, and the element keeps a copy of its last mesh. The
   * mesh is built with the dimensions the shape object has kept since its
   * first successful construction, which need not be these.
   */
  method NewColumnHead(cls: ColumnHeadCrossShapeClass, v: map<int, Point>, e: seq<Edge>, f: seq<seq<int>>,
                       width: real, depth: real, height: real, offset: real, name: Option<string>)
    returns (r: Result<ColumnHeadCross>)
    requires cls.instance != null ==> cls.instance.Valid()
    modifies cls, cls.instance
    ensures cls.instance != null && cls.instance.Valid()
    ensures old(cls.instance) != null ==> cls.instance == old(cls.instance)
    ensures cls.instance.dims == if old(cls.instance) != null && old(cls.instance.initialized) then old(cls.instance.dims)
                                 else Dimensions(width, depth, height, offset)
    ensures old(cls.instance) != null && old(cls.instance.initialized) ==> cls.instance.initialized
    ensures r.Ok? <==> GenerateRules(v, e, f).Ok?
    ensures r.Err? ==> r.error == GenerateRules(v, e, f).error
    ensures r.Ok? ==>
      var rules := GenerateRules(v, e, f).value;
      cls.instance.initialized && MeshOf(rules, cls.instance.dims).Ok?
      && r.value == ColumnHeadCross(v, e, f, width, depth, height, offset, ElementName(name), MeshOf(rules, cls.instance.dims).value)
      && r.value.shape.faces == HeadFaces(rules)
  {
    var shape, result := cls.Call(v, e, f, width, depth, height, offset);
    if result.Err? {
      return Err(result.error);
    }
    r := Ok(ColumnHeadCross(v, e, f, width, depth, height, offset, ElementName(name), shape.lastMesh.value));
  }

  /**
   * rebuild(v, e, f): a new element for another junction with this
   * element's dimensions and name.
   */
  method Rebuild(cls: ColumnHeadCrossShapeClass, template: ColumnHeadCross, v: map<int, Point>, e: seq<Edge>, f: seq<seq<int>>)
    returns (r: Result<ColumnHeadCross>)
    requires cls.instance != null ==> cls.instance.Valid()
    modifies cls, cls.instance
    ensures cls.instance != null && cls.instance.Valid()
    ensures old(cls.instance) != null ==> cls.instance == old(cls.instance)
    ensures old(cls.instance) != null && old(cls.instance.initialized) ==>
      cls.instance.initialized && cls.instance.dims == old(cls.instance.dims)
    ensures r.Ok? <==> GenerateRules(v, e, f).Ok?
    ensures r.Err? ==> r.error == GenerateRules(v, e, f).error
    ensures r.Ok? ==>
      r.value.v == v && r.value.e == e && r.value.f == f
      && r.value.width == template.width && r.value.depth == template.depth
      && r.value.height == template.height && r.value.offset == template.offset
      && r.value.name == ElementName(Some(template.name))
      && MeshOf(GenerateRules(v, e, f).value, cls.instance.dims).Ok?
      && r.value.shape == MeshOf(GenerateRules(v, e, f).value, cls.instance.dims).value
  {
    r := NewColumnHead(cls, v, e, f, template.width, template.depth, template.height, template.offset, Some(template.name));
  }

  /** The part of __data__ this class adds, with the name BaseElement stores. */
  datatype HeadData = HeadData(
    v: map<int, Point>,
    e: seq<Edge>,
    f: seq<seq<int>>,
    width: real,
    depth: real,
    height: real,
    offset: real,
    name: string)

  /** __data__ */
  function Data(h: ColumnHeadCross): HeadData
  {
    HeadData(h.v, h.e, h.f, h.width, h.depth, h.height, h.offset, h.name)
  }

  /** __from_data__: the stored values passed back to the constructor, in order. */
  method FromData(cls: ColumnHeadCrossShapeClass, d: HeadData) returns (r: Result<ColumnHeadCross>)
    requires cls.instance != null ==> cls.instance.Valid()
    modifies cls, cls.instance
    ensures cls.instance != null && cls.instance.Valid()
    ensures r.Ok? <==> GenerateRules(d.v, d.e, d.f).Ok?
    ensures r.Ok? ==> Data(r.value) == d.(name := ElementName(Some(d.name)))
  {
    r := NewColumnHead(cls, d.v, d.e, d.f, d.width, d.depth, d.height, d.offset, Some(d.name));
  }

  /**
   * Serialising an element the constructor produced and reading it back
   * gives the same data: its name is never "None", so it survives.
   */
  lemma DataRoundTrip(h: ColumnHeadCross, name: Option<string>)
    requires h.name == ElementName(name)
    ensures Data(h).(name := ElementName(Some(Data(h).name))) == Data(h)
  {
  }
}
