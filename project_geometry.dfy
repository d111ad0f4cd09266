/**
 * A geometry pushed through the Lambert Conformal Conic forward
 * projection: what the fail-fast traversal of the adaptors means when the
 * per-coordinate step is `Lcc.Forward`.
 */
module ProjectGeometry {
  import opened Errors
  import L = Lcc
  import opened GeoTypes

  /** The closure that projects one `(lam, phi)` pair forward, with the height fixed at 0. */
  function ForwardClosure(p: L.Lcc, m: L.Externals): Closure {
    (lam: real, phi: real) =>
      match L.Forward(p, m, lam, phi, 0.0)
      case Ok((x, y, _)) => Ok((x, y))
      case Err(e) => Err(e)
  }

  /** The step a line string's traversal applies to each coordinate. */
  function ForwardStep(p: L.Lcc, m: L.Externals): Coord -> Result<Coord> {
    c => CoordStep(ForwardClosure(p, m), c)
  }

  /** A latitude at a pole on the side of the cone's apex the projection cannot reach. */
  predicate WrongSidePole(p: L.Lcc, phi: real) {
    L.NearPole(phi) && phi * p.n <= 0.0
  }

  /** One coordinate's step fails exactly at a pole on the wrong side of the cone, always with the tolerance error. */
  lemma ForwardStepFails(p: L.Lcc, m: L.Externals, c: Coord)
    ensures ForwardStep(p, m)(c).Err? <==> WrongSidePole(p, c.y)
    ensures ForwardStep(p, m)(c).Err? ==> ForwardStep(p, m)(c).error == ToleranceConditionError
  {
  }

  /**
   * A line string holding a pole on the wrong side of the cone anywhere
   * fails as a whole with the tolerance error; every coordinate from the
   * first such pole on keeps its input value, and every one before it is
   * projected.
   */
  lemma WrongSidePoleFailsLineString(p: L.Lcc, m: L.Externals, s: seq<Coord>, k: nat)
    requires k < |s| && WrongSidePole(p, s[k].y)
    ensures var step := ForwardStep(p, m);
      var (r, out) := Traverse(step, s);
      var first := FirstFailure(step, s);
      && r == Err(ToleranceConditionError)
      && first <= k
      && WrongSidePole(p, s[first].y)
      && (forall j :: 0 <= j < first ==> out[j] == step(s[j]).value)
      && (forall j :: first <= j < |s| ==> out[j] == s[j])
  {
    var step := ForwardStep(p, m);
    TraverseSpec(step, s);
    var first := FirstFailure(step, s);
    ForwardStepFails(p, m, s[k]);
    assert first <= k;
    ForwardStepFails(p, m, s[first]);
  }

  /** With no coordinate on a pole, every coordinate is projected and the line string succeeds. */
  lemma OffPoleLineStringSucceeds(p: L.Lcc, m: L.Externals, s: seq<Coord>)
    requires forall j :: 0 <= j < |s| ==> !L.NearPole(s[j].y)
    ensures var step := ForwardStep(p, m);
      var (r, out) := Traverse(step, s);
      && r == Ok(())
      && forall j :: 0 <= j < |s| ==>
           out[j] == Coord(L.Forward(p, m, s[j].x, s[j].y, 0.0).value.0, L.Forward(p, m, s[j].x, s[j].y, 0.0).value.1)
  {
    var step := ForwardStep(p, m);
    TraverseSpec(step, s);
    assert FirstFailure(step, s) == |s|;
  }
}
