/**
 * The geometry adaptors (src/adaptors/geo_types.rs): applying a fallible
 * per-coordinate transform to every coordinate of a `Coord`, `Point`,
 * `MultiPoint`, `Line` or `LineString`, in order, stopping at the first
 * failure.
 *
 * `&mut Coord`, `&mut Point` and `&mut Line` are modelled as in/out
 * values (the value before, and the value after together with the
 * status); a `MultiPoint` or `LineString` owns a vector that is updated
 * element by element, modelled as an array mutated in place.
 */
module GeoTypes {
  import opened Errors

  datatype Coord = Coord(x: real, y: real)

  /** `Point(Coord)`. */
  datatype Point = Point(coord: Coord)

  /** `Line { start, end }`. */
  datatype Line = Line(start: Coord, end: Coord)

  /**
   * The transform applied to one `(x, y)` pair: the closure as the tuple
   * implementation of `Transform` runs it.
   */
  type Closure = (real, real) -> Result<(real, real)>

  /** What one coordinate becomes under the closure, or the closure's error. */
  function CoordStep(f: Closure, c: Coord): Result<Coord> {
    match f(c.x, c.y)
    case Ok((x, y)) => Ok(Coord(x, y))
    case Err(e) => Err(e)
  }

  /** What one point becomes: its coordinate's step, wrapped. */
  function PointStep(f: Closure, p: Point): Result<Point> {
    match CoordStep(f, p.coord)
    case Ok(c) => Ok(Point(c))
    case Err(e) => Err(e)
  }

  /** The status part of a step, as `transform_coordinates` returns it. */
  function Status<T>(res: Result<T>): Result<()> {
    match res
    case Ok(_) => Ok(())
    case Err(e) => Err(e)
  }

  /** The value a place holds after a step: the new value, or the old one on failure. */
  function Settle<T>(prev: T, res: Result<T>): T {
    match res
    case Ok(v) => v
    case Err(_) => prev
  }

  /** The index of the first element whose step fails, or `|s|` when none does. */
  function FirstFailure<T>(step: T -> Result<T>, s: seq<T>): (k: nat)
    ensures k <= |s|
    ensures forall j :: 0 <= j < k ==> step(s[j]).Ok?
    ensures k < |s| ==> step(s[k]).Err?
  {
    if s == [] then 0
    else if step(s[0]).Err? then 0
    else 1 + FirstFailure(step, s[1..])
  }

  /** How many elements a fail-fast traversal hands to the closure: up to and including the first failure. */
  function Visits<T>(step: T -> Result<T>, s: seq<T>): nat {
    var k := FirstFailure(step, s);
    if k < |s| then k + 1 else |s|
  }

  /**
   * Reference definition of `try_for_each` over mutable elements: each
   * element in turn is replaced by its step's value; the first failure is
   * returned and leaves that element and all later ones as they were.
   */
  function Traverse<T>(step: T -> Result<T>, s: seq<T>): (res: (Result<()>, seq<T>))
    ensures |res.1| == |s|
  {
    if s == [] then (Ok(()), [])
    else
      match step(s[0])
      case Err(e) => (Err(e), s)
      case Ok(v) =>
        var (r, rest) := Traverse(step, s[1..]);
        (r, [v] + rest)
  }

  /**
   * What a traversal does, element by element: with `k` the first failure,
   * the status is that element's error (or success when there is none),
   * the elements before `k` hold their new values and those from `k` on
   * are untouched.
   */
  lemma {:induction false} TraverseSpec<T>(step: T -> Result<T>, s: seq<T>)
    ensures var (r, out) := Traverse(step, s); var k := FirstFailure(step, s);
      && |out| == |s|
      && (k == |s| ==> r == Ok(()))
      && (k < |s| ==> r == Err(step(s[k]).error))
      && (forall j :: 0 <= j < k ==> out[j] == step(s[j]).value)
      && (forall j :: k <= j < |s| ==> out[j] == s[j])
  {
    if s != [] && step(s[0]).Ok? {
      TraverseSpec(step, s[1..]);
      var (r, rest) := Traverse(step, s[1..]);
      var out := [step(s[0]).value] + rest;
      assert Traverse(step, s) == (r, out);
      forall j | 1 <= j < |s| ensures out[j] == rest[j - 1] {}
    }
  }

  /** The traversal succeeds exactly when every element's step succeeds, and then maps every element. */
  lemma TraverseSucceeds<T>(step: T -> Result<T>, s: seq<T>)
    ensures Traverse(step, s).0.Ok? <==> forall j :: 0 <= j < |s| ==> step(s[j]).Ok?
    ensures Traverse(step, s).0.Ok? ==>
      |Traverse(step, s).1| == |s| && forall j :: 0 <= j < |s| ==> Traverse(step, s).1[j] == step(s[j]).value
  {
    TraverseSpec(step, s);
    var k := FirstFailure(step, s);
    if k < |s| {
      assert !step(s[k]).Ok?;
    }
  }

  /**
   * N copies of one element give N copies of its single result; if that
   * step fails, the first copy reports the error and nothing changes.
   */
  lemma TraverseUniform<T>(step: T -> Result<T>, s: seq<T>, x: T)
    requires forall j :: 0 <= j < |s| ==> s[j] == x
    ensures step(x).Ok? ==> Traverse(step, s) == (Ok(()), seq(|s|, _ => step(x).value))
    ensures step(x).Err? && |s| > 0 ==> Traverse(step, s) == (Err(step(x).error), s)
  {
    TraverseSpec(step, s);
    if step(x).Ok? {
      assert Traverse(step, s).1 == seq(|s|, _ => step(x).value);
    }
  }

  /** `impl Transform for Coord`: the closure runs on a local copy, which replaces the coordinate only on success. */
  method TransformCoord(c: Coord, f: Closure) returns (c': Coord, r: Result<()>)
    ensures f(c.x, c.y).Ok? ==> r == Ok(()) && c' == Coord(f(c.x, c.y).value.0, f(c.x, c.y).value.1)
    ensures f(c.x, c.y).Err? ==> r == Err(f(c.x, c.y).error) && c' == c
    ensures r == Status(CoordStep(f, c)) && c' == Settle(c, CoordStep(f, c))
  {
    var xy := (c.x, c.y);
    var t := f(xy.0, xy.1);
    if t.Err? {
      return c, Err(t.error);
    }
    xy := t.value;
    c' := Coord(xy.0, xy.1);
    r := Ok(());
  }

  /** `impl Transform for Point`: exactly the transform of the inner coordinate. */
  method TransformPoint(p: Point, f: Closure) returns (p': Point, r: Result<()>)
    ensures r == Status(CoordStep(f, p.coord)) && p' == Point(Settle(p.coord, CoordStep(f, p.coord)))
    ensures r == Status(PointStep(f, p)) && p' == Settle(p, PointStep(f, p))
  {
    var c;
    c, r := TransformCoord(p.coord, f);
    p' := Point(c);
  }

  /**
   * `impl Transform for Line`: start, then end, each on a local copy; the
   * line is rebuilt only when both succeed, so a failure of either leaves
   * the whole line as it was, even after the start succeeded. The end is
   * not handed to the closure when the start fails.
   */
  method TransformLine(l: Line, f: Closure) returns (l': Line, r: Result<()>, ghost visited: seq<Coord>)
    ensures CoordStep(f, l.start).Err? ==> r == Err(CoordStep(f, l.start).error) && l' == l && visited == [l.start]
    ensures CoordStep(f, l.start).Ok? && CoordStep(f, l.end).Err? ==>
              r == Err(CoordStep(f, l.end).error) && l' == l && visited == [l.start, l.end]
    ensures CoordStep(f, l.start).Ok? && CoordStep(f, l.end).Ok? ==>
              r == Ok(()) && l' == Line(CoordStep(f, l.start).value, CoordStep(f, l.end).value)
              && visited == [l.start, l.end]
    ensures var (status, out) := Traverse(c => CoordStep(f, c), [l.start, l.end]);
              r == status && l' == if r.Ok? then Line(out[0], out[1]) else l
  {
    var start, end := l.start, l.end;
    visited := [start];
    start, r := TransformCoord(start, f);
    if r.Err? {
      return l, r, visited;
    }
    visited := visited + [end];
    end, r := TransformCoord(end, f);
    if r.Err? {
      return l, r, visited;
    }
    l' := Line(start, end);
    TraverseSpec(c => CoordStep(f, c), [l.start, l.end]);
  }

  /** `LineString(Vec<Coord>)`: the coordinates, updated in place. */
  class LineString {
    const coords: array<Coord>

    constructor(cs: seq<Coord>)
      ensures coords[..] == cs && fresh(coords)
    {
      coords := new Coord[|cs|](i requires 0 <= i < |cs| => cs[i]);
    }

    /**
     * `impl Transform for LineString`: each coordinate in index order is
     * transformed in place; the first failure is returned at once, and the
     * coordinates before it stay transformed.
     */
    method TransformCoordinates(f: Closure) returns (r: Result<()>, ghost visited: seq<Coord>)
      modifies coords
      ensures (r, coords[..]) == Traverse(c => CoordStep(f, c), old(coords[..]))
      ensures visited == old(coords[..])[..Visits(c => CoordStep(f, c), old(coords[..]))]
      ensures var k := FirstFailure(c => CoordStep(f, c), old(coords[..]));
        && (k == coords.Length ==> r == Ok(()))
        && (k < coords.Length ==> r == Err(CoordStep(f, old(coords[k])).error))
        && (forall j :: 0 <= j < k ==> coords[j] == CoordStep(f, old(coords[j])).value)
        && (forall j :: k <= j < coords.Length ==> coords[j] == old(coords[j]))
    {
      ghost var s := coords[..];
      ghost var step := c => CoordStep(f, c);
      TraverseSpec(step, s);
      visited := [];
      var i := 0;
      while i < coords.Length
        invariant 0 <= i <= coords.Length
        invariant forall j :: 0 <= j < i ==> CoordStep(f, s[j]).Ok? && coords[j] == CoordStep(f, s[j]).value
        invariant forall j :: i <= j < coords.Length ==> coords[j] == s[j]
        invariant visited == s[..i]
      {
        visited := visited + [coords[i]];
        var c, ri := TransformCoord(coords[i], f);
        coords[i] := c;
        if ri.Err? {
          assert FirstFailure(step, s) == i;
          assert coords[..] == Traverse(step, s).1;
          return ri, visited;
        }
        i := i + 1;
      }
      r := Ok(());
      assert FirstFailure(step, s) == i;
      assert coords[..] == Traverse(step, s).1;
    }
  }

  /** `MultiPoint(Vec<Point>)`: the points, updated in place. */
  class MultiPoint {
    const points: array<Point>

    constructor(ps: seq<Point>)
      ensures points[..] == ps && fresh(points)
    {
      points := new Point[|ps|](i requires 0 <= i < |ps| => ps[i]);
    }

    /**
     * `impl Transform for MultiPoint`: each point in index order is
     * transformed in place; the first failure is returned at once, and the
     * points before it stay transformed.
     */
    method TransformCoordinates(f: Closure) returns (r: Result<()>, ghost visited: seq<Point>)
      modifies points
      ensures (r, points[..]) == Traverse(p => PointStep(f, p), old(points[..]))
      ensures visited == old(points[..])[..Visits(p => PointStep(f, p), old(points[..]))]
      ensures var k := FirstFailure(p => PointStep(f, p), old(points[..]));
        && (k == points.Length ==> r == Ok(()))
        && (k < points.Length ==> r == Err(PointStep(f, old(points[k])).error))
        && (forall j :: 0 <= j < k ==> points[j] == PointStep(f, old(points[j])).value)
        && (forall j :: k <= j < points.Length ==> points[j] == old(points[j]))
    {
      ghost var s := points[..];
      ghost var step := p => PointStep(f, p);
      TraverseSpec(step, s);
      visited := [];
      var i := 0;
      while i < points.Length
        invariant 0 <= i <= points.Length
        invariant forall j :: 0 <= j < i ==> PointStep(f, s[j]).Ok? && points[j] == PointStep(f, s[j]).value
        invariant forall j :: i <= j < points.Length ==> points[j] == s[j]
        invariant visited == s[..i]
      {
        visited := visited + [points[i]];
        var p, ri := TransformPoint(points[i], f);
        points[i] := p;
        if ri.Err? {
          assert FirstFailure(step, s) == i;
          assert points[..] == Traverse(step, s).1;
          return ri, visited;
        }
        i := i + 1;
      }
      r := Ok(());
      assert FirstFailure(step, s) == i;
      assert points[..] == Traverse(step, s).1;
    }
  }
}
