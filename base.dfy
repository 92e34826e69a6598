/**
 * Values shared by every part of the model: optional values, the Python
 * exceptions the code raises, and three-dimensional points and vectors.
 */
module Base {

  datatype Option<+T> = None | Some(value: T)

  /** The exception classes raised by the modelled code. */
  datatype Error =
    | ValueError
    | KeyError
    | IndexError
    | TypeError
    | ZeroDivisionError
    | AttributeError
    | RecursionError

  /** A computation that either returns a value or raises. */
  datatype Result<+T> = Ok(value: T) | Err(error: Error)

  /** Two list results joined: the first error, or both lists one after the other. */
  function Then<T>(a: Result<seq<T>>, b: Result<seq<T>>): (r: Result<seq<T>>)
    ensures r.Ok? <==> a.Ok? && b.Ok?
    ensures r.Ok? ==> r.value == a.value + b.value
    ensures a.Err? ==> r == a
    ensures a.Ok? && b.Err? ==> r == b
  {
    match a
      case Err(x) => Err(x)
      case Ok(x) =>
        match b
          case Err(y) => Err(y)
          case Ok(y) => Ok(x + y)
  }

  lemma ThenEmpty<T>(r: Result<seq<T>>)
    ensures Then(Ok([]), r) == r
  {
    if r.Ok? {
      assert [] + r.value == r.value;
    }
  }

  lemma ThenAppend<T>(lines: seq<T>, more: seq<T>, rest: Result<seq<T>>)
    ensures Then(Ok(lines), Then(Ok(more), rest)) == Then(Ok(lines + more), rest)
  {
    if rest.Ok? {
      assert lines + (more + rest.value) == lines + more + rest.value;
    }
  }

  lemma ThenAssociates<T>(a: seq<T>, b: Result<seq<T>>, c: Result<seq<T>>)
    ensures Then(Ok(a), Then(b, c)) == Then(Then(Ok(a), b), c)
  {
    if b.Ok? && c.Ok? {
      assert a + (b.value + c.value) == (a + b.value) + c.value;
    }
  }

  /** compas Point and Vector: both are triples of coordinates. */
  datatype Vector = Vector(x: real, y: real, z: real)

  type Point = Vector

  const Origin: Point := Vector(0.0, 0.0, 0.0)

  /** A compas Line: its two end points. */
  datatype Line = Line(start: Point, end: Point)

  /** line.vector: from the start of the line to its end. */
  function LineVector(l: Line): Vector
  {
    Sub(l.end, l.start)
  }

  function Add(a: Vector, b: Vector): Vector
  {
    Vector(a.x + b.x, a.y + b.y, a.z + b.z)
  }

  function Sub(a: Vector, b: Vector): Vector
  {
    Vector(a.x - b.x, a.y - b.y, a.z - b.z)
  }

  /** The difference of two points is the zero vector exactly when they coincide. */
  lemma SubZero(a: Vector, b: Vector)
    ensures Sub(a, b) == Origin <==> a == b
  {
  }

  /** The head and the tail of a sequence are among its members. */
  lemma Uncons<T>(s: seq<T>)
    ensures s != [] ==> s[0] in s && forall x :: x in s[1..] ==> x in s
  {
  }

  function Scale(a: Vector, k: real): Vector
  {
    Vector(k * a.x, k * a.y, k * a.z)
  }

  function Dot(a: Vector, b: Vector): real
  {
    a.x * b.x + a.y * b.y + a.z * b.z
  }

  /** Squared length; the length itself is a square root Dafny has no name for. */
  function Norm2(a: Vector): real
  {
    Dot(a, a)
  }

  function Abs(x: real): real
  {
    if x < 0.0 then -x else x
  }

  function Min(a: int, b: int): int
  {
    if a <= b then a else b
  }

  function MaxReal(a: real, b: real): real
  {
    if a >= b then a else b
  }

  function MinReal(a: real, b: real): real
  {
    if a <= b then a else b
  }

  /** ASCII lower-casing, as str.lower() does on ASCII text. */
  function LowerChar(c: char): char
  {
    if 'A' <= c <= 'Z' then (c as int - 'A' as int + 'a' as int) as char else c
  }

  function Lower(s: string): (r: string)
    ensures |r| == |s|
    ensures forall i :: 0 <= i < |s| ==> r[i] == LowerChar(s[i])
  {
    if s == [] then [] else [LowerChar(s[0])] + Lower(s[1..])
  }
}
