/**
 * Lambert Conformal Conic projection (src/projections/lcc.rs): the
 * initialiser that derives the cone constants from the standard parallels,
 * and the forward and inverse mappings. Only the control structure is
 * modelled: which branch is taken, which error is returned, what is copied
 * through unchanged. The transcendental functions, IEEE division and the
 * helpers of `crate::math` are given functions (see `Externals`), so
 * nothing here depends on their numeric values.
 */
module Lcc {
  import opened Options
  import opened Errors

  /** `crate::consts`: the shared tolerance and the two fractions of pi (as decimals). */
  const EPS_10: real := 0.0000000001
  const FRAC_PI_2: real := 1.5707963267948966
  const FRAC_PI_4: real := 0.7853981633974483

  function Abs(x: real): real {
    if x < 0.0 then -x else x
  }

  /**
   * The functions the projection calls without this model defining them:
   * `f64::sin`, `cos`, `tan`, `atan`, `ln`, `powf`, `hypot`, `atan2`
   * (`atan2(a, b)` is `a.atan2(b)`), IEEE division `div` (total, unlike
   * real division), the `msfn`, `tsfn` and `phi2` helpers of `crate::math`,
   * and the `ProjData::phi0()` accessor applied to the context's `phi0`.
   */
  datatype Externals = Externals(
    sin: real -> real,
    cos: real -> real,
    tan: real -> real,
    atan: real -> real,
    ln: real -> real,
    pow: (real, real) -> real,
    hypot: (real, real) -> real,
    atan2: (real, real) -> real,
    div: (real, real) -> real,
    msfn: (real, real, real) -> real,
    tsfn: (real, real, real) -> real,
    phi2: (real, real) -> Result<real>,
    phi0Of: Option<real> -> real)

  /** The part of the ellipsoid the projection reads: eccentricity squared and eccentricity. */
  datatype Ellipsoid = Ellipsoid(es: real, e: real)

  /** `ParamList::try_angular_value`: a parameter's value in radians, absent, or an error. */
  type ParamList = string -> Result<Option<real>>

  /**
   * The shared init context (`ProjData`): the reference latitude, which an
   * initialiser may seed, the scale factor and the ellipsoid.
   */
  class ProjData {
    var phi0: Option<real>
    const k0: real
    const ellps: Ellipsoid

    constructor(phi0: Option<real>, k0: real, ellps: Ellipsoid)
      ensures this.phi0 == phi0 && this.k0 == k0 && this.ellps == ellps
    {
      this.phi0 := phi0;
      this.k0 := k0;
      this.ellps := ellps;
    }
  }

  /** The frozen projection instance. */
  datatype Lcc = Lcc(phi1: real, phi2: real, n: real, rho0: real, c: real, ellips: bool, e: real, k0: real)

  /** `|phi|` lies within the tolerance of a right angle: the point is (numerically) a pole. */
  predicate NearPole(phi: real) {
    Abs(Abs(phi) - FRAC_PI_2) < EPS_10
  }

  /** The two standard parallels read from the parameters: `lat_1` defaults to 0, `lat_2` to `lat_1`. */
  function StandardParallels(params: ParamList): (r: Result<(real, real)>)
    ensures r.Ok? <==> params("lat_1").Ok? && params("lat_2").Ok?
    ensures params("lat_1").Err? ==> r == Err(params("lat_1").error)
    ensures params("lat_1").Ok? && params("lat_2").Err? ==> r == Err(params("lat_2").error)
    ensures r.Ok? && params("lat_1").value.None? ==> r.value.0 == 0.0
    ensures r.Ok? && params("lat_1").value.Some? ==> r.value.0 == params("lat_1").value.value
    ensures r.Ok? && params("lat_2").value.None? ==> r.value.1 == r.value.0
    ensures r.Ok? && params("lat_2").value.Some? ==> r.value.1 == params("lat_2").value.value
  {
    var lat1 :- params("lat_1");
    var phi1 := lat1.UnwrapOr(0.0);
    var lat2 :- params("lat_2");
    Ok((phi1, lat2.UnwrapOr(phi1)))
  }

  /**
   * The context's `phi0` after the parameters are read: when `lat_2` is
   * absent it takes `phi1`, but only if it was unset.
   */
  function SeedPhi0(params: ParamList, phi0: Option<real>): (r: Option<real>)
    ensures phi0.Some? ==> r == phi0
    ensures r != phi0 ==> params("lat_1").Ok? && params("lat_2") == Ok(None)
    ensures phi0.None? && params("lat_1").Ok? && params("lat_2") == Ok(None) ==>
              r == Some(params("lat_1").value.UnwrapOr(0.0))
  {
    match params("lat_1")
    case Err(_) => phi0
    case Ok(lat1) =>
      match params("lat_2")
      case Ok(None) => phi0.Or(Some(lat1.UnwrapOr(0.0)))
      case _ => phi0
  }

  /** The secant case: the two standard parallels are numerically distinct. */
  predicate Secant(phi1: real, phi2: real) {
    Abs(phi1 - phi2) >= EPS_10
  }

  /**
   * The constants of the instance, from the standard parallels, the
   * reference latitude `phi0` (the accessor's value) and the context.
   */
  function Constants(phi1: real, phi2: real, phi0: real, el: Ellipsoid, k0: real, m: Externals): (p: Lcc)
    ensures p.phi1 == phi1 && p.phi2 == phi2
    ensures p.ellips <==> el.es != 0.0
    ensures p.e == el.e && p.k0 == k0
    ensures !Secant(phi1, phi2) ==> p.n == m.sin(phi1)
    ensures NearPole(phi0) ==> p.rho0 == 0.0
  {
    var sinphi := m.sin(phi1);
    var cosphi := m.cos(phi1);
    var secant := Abs(phi1 - phi2) >= EPS_10;
    var ellips := el.es != 0.0;
    if ellips then
      var m1 := m.msfn(sinphi, cosphi, el.es);
      var ml1 := m.tsfn(phi1, sinphi, el.e);
      var n :=
        if secant then
          var sinphi2 := m.sin(phi2);
          m.div(m.ln(m.div(m1, m.msfn(sinphi2, m.cos(phi2), el.es))),
                m.ln(m.div(ml1, m.tsfn(phi2, sinphi2, el.e))))
        else sinphi;
      var c := m.div(m1 * m.pow(ml1, -n), n);
      var rho0 := if Abs(Abs(phi0) - FRAC_PI_2) < EPS_10 then 0.0
                  else c * m.pow(m.tsfn(phi0, m.sin(phi0), el.e), n);
      Lcc(phi1, phi2, n, rho0, c, ellips, el.e, k0)
    else
      var n :=
        if secant then
          m.div(m.ln(m.div(cosphi, m.cos(phi2))),
                m.ln(m.div(m.tan(FRAC_PI_4 + 0.5 * phi2), m.tan(FRAC_PI_4 + 0.5 * phi1))))
        else sinphi;
      var c := m.div(cosphi * m.pow(m.tan(FRAC_PI_4 + 0.5 * phi1), n), n);
      var rho0 := if Abs(Abs(phi0) - FRAC_PI_2) < EPS_10 then 0.0
                  else c * m.pow(m.tan(FRAC_PI_4 + 0.5 * phi0), -n);
      Lcc(phi1, phi2, n, rho0, c, ellips, el.e, k0)
  }

  /**
   * The step of `init` after the parameters are read: equal and opposite
   * standard parallels are rejected before any constant is computed.
   */
  function Setup(phi1: real, phi2: real, phi0: real, el: Ellipsoid, k0: real, m: Externals): (r: Result<Lcc>)
    ensures r.Err? <==> Abs(phi1 + phi2) < EPS_10
    ensures r.Err? ==> r.error == ProjErrConicLatEqual
    ensures r.Ok? ==> r.value == Constants(phi1, phi2, phi0, el, k0, m)
  {
    if Abs(phi1 + phi2) < EPS_10 then Err(ProjErrConicLatEqual)
    else Ok(Constants(phi1, phi2, phi0, el, k0, m))
  }

  /**
   * `Projection::init`. Reads `lat_1` and `lat_2`, seeding `p.phi0` on the
   * way when `lat_2` is absent (the seeding stays even if the check below
   * then fails), rejects standard parallels that are equal and opposite,
   * and otherwise freezes the constants.
   */
  method Init(p: ProjData, params: ParamList, m: Externals) returns (r: Result<Lcc>)
    modifies p
    ensures p.phi0 == SeedPhi0(params, old(p.phi0))
    ensures StandardParallels(params).Err? ==> r == Err(StandardParallels(params).error)
    ensures StandardParallels(params).Ok? ==>
              var (phi1, phi2) := StandardParallels(params).value;
              r == Setup(phi1, phi2, m.phi0Of(p.phi0), p.ellps, p.k0, m)
  {
    var lat1 := params("lat_1");
    if lat1.Err? {
      return Err(lat1.error);
    }
    var phi1 := lat1.value.UnwrapOr(0.0);
    var lat2 := params("lat_2");
    if lat2.Err? {
      return Err(lat2.error);
    }
    var phi2;
    if lat2.value.None? {
      p.phi0 := p.phi0.Or(Some(phi1));
      phi2 := phi1;
    } else {
      phi2 := lat2.value.value;
    }
    if Abs(phi1 + phi2) < EPS_10 {
      return Err(ProjErrConicLatEqual);
    }
    r := Ok(Constants(phi1, phi2, m.phi0Of(p.phi0), p.ellps, p.k0, m));
  }

  /**
   * `Projection::forward`. At a pole the radius is 0 when the pole lies on
   * the cone's side (`phi * n > 0`) and the call fails otherwise; elsewhere
   * it never fails. `z` passes through.
   */
  function Forward(p: Lcc, m: Externals, lam: real, phi: real, z: real): (r: Result<(real, real, real)>)
    ensures r.Err? <==> NearPole(phi) && phi * p.n <= 0.0
    ensures r.Err? ==> r.error == ToleranceConditionError
    ensures r.Ok? ==> r.value.2 == z
    ensures r.Ok? && NearPole(phi) ==> r.value.0 == 0.0 && r.value.1 == p.k0 * p.rho0
  {
    var rho :-
      if Abs(Abs(phi) - FRAC_PI_2) < EPS_10 then
        if phi * p.n <= 0.0 then Err(ToleranceConditionError) else Ok(0.0)
      else
        Ok(p.c * if p.ellips then m.pow(m.tsfn(phi, m.sin(phi), p.e), p.n)
                 else m.pow(m.tan(FRAC_PI_4 + 0.5 * phi), -p.n));
    var lam := lam * p.n;
    Ok((p.k0 * (rho * m.sin(lam)), p.k0 * (p.rho0 - rho * m.cos(lam)), z))
  }

  /** The polar radius `inverse` computes for a projected point, after descaling and recentring. */
  function Radius(p: Lcc, m: Externals, x: real, y: real): real {
    m.hypot(m.div(x, p.k0), p.rho0 - m.div(y, p.k0))
  }

  /**
   * Keeps the math in the cone's canonical orientation: for a negative
   * cone constant the radius and both coordinates change sign together.
   */
  function Orient(n: real, rho: real, x: real, y: real): (r: (real, real, real))
    ensures n < 0.0 ==> r == (-rho, -x, -y)
    ensures n >= 0.0 ==> r == (rho, x, y)
    ensures rho >= 0.0 ==> (n < 0.0 ==> r.0 <= 0.0) && (n >= 0.0 ==> r.0 >= 0.0)
  {
    if n < 0.0 then (-rho, -x, -y) else (rho, x, y)
  }

  /**
   * `Projection::inverse`. A zero radius is the pole on the cone's side and
   * never fails; otherwise only the ellipsoidal latitude (the `phi2`
   * iteration) can fail, with its own error. `z` passes through.
   */
  function Inverse(p: Lcc, m: Externals, x: real, y: real, z: real): (r: Result<(real, real, real)>)
    ensures Radius(p, m, x, y) == 0.0 ==> r == Ok((0.0, if p.n > 0.0 then FRAC_PI_2 else -FRAC_PI_2, z))
    ensures r.Err? ==> p.ellips && Radius(p, m, x, y) != 0.0
    ensures !p.ellips ==> r.Ok?
    ensures p.ellips && Radius(p, m, x, y) != 0.0 ==>
      var o := Orient(p.n, Radius(p, m, x, y), m.div(x, p.k0), p.rho0 - m.div(y, p.k0));
      var lat := m.phi2(m.pow(m.div(o.0, p.c), m.div(1.0, p.n)), p.e);
      && (r.Err? <==> lat.Err?)
      && (r.Err? ==> r.error == lat.error)
      && (r.Ok? ==> r.value.1 == lat.value)
    ensures r.Ok? && Radius(p, m, x, y) != 0.0 ==>
      var o := Orient(p.n, Radius(p, m, x, y), m.div(x, p.k0), p.rho0 - m.div(y, p.k0));
      && r.value.0 == m.div(m.atan2(o.1, o.2), p.n)
      && (!p.ellips ==> r.value.1 == 2.0 * m.atan(m.pow(m.div(p.c, o.0), m.div(1.0, p.n))) - FRAC_PI_2)
    ensures r.Ok? ==> r.value.2 == z
  {
    var x := m.div(x, p.k0);
    var y := p.rho0 - m.div(y, p.k0);
    var rho := m.hypot(x, y);
    if rho != 0.0 then
      var (rho, x, y) := Orient(p.n, rho, x, y);
      var phi :-
        if p.ellips then m.phi2(m.pow(m.div(rho, p.c), m.div(1.0, p.n)), p.e)
        else Ok(2.0 * m.atan(m.pow(m.div(p.c, rho), m.div(1.0, p.n))) - FRAC_PI_2);
      var lam := m.div(m.atan2(x, y), p.n);
      Ok((lam, phi, z))
    else
      Ok((0.0, if p.n > 0.0 then FRAC_PI_2 else -FRAC_PI_2, z))
  }

  /** `Projection::has_forward`: the projection has a forward mapping. */
  function HasForward(): (b: bool)
    ensures b
  {
    true
  }

  /** `Projection::has_inverse`: the projection has an inverse mapping. */
  function HasInverse(): (b: bool)
    ensures b
  {
    true
  }

  /** Seeding is idempotent: a second reading of the same parameters leaves `phi0` as the first left it. */
  lemma SeedPhi0Idempotent(params: ParamList, phi0: Option<real>)
    ensures SeedPhi0(params, SeedPhi0(params, phi0)) == SeedPhi0(params, phi0)
  {
  }

  /**
   * Omitting `lat_2` gives the tangent case on `lat_1`: the second parallel
   * is the first, an unset `phi0` is seeded with it, and unless the
   * parallel is (numerically) the equator the cone constant is its sine.
   */
  lemma OmittedSecondParallel(params: ParamList, phi0: real, el: Ellipsoid, k0: real, m: Externals)
    requires params("lat_1").Ok? && params("lat_2") == Ok(None)
    ensures var phi1 := params("lat_1").value.UnwrapOr(0.0);
      && StandardParallels(params) == Ok((phi1, phi1))
      && SeedPhi0(params, None) == Some(phi1)
      && (forall v :: SeedPhi0(params, Some(v)) == Some(v))
      && !Secant(phi1, phi1)
      && (Setup(phi1, phi1, phi0, el, k0, m).Err? <==> Abs(2.0 * phi1) < EPS_10)
      && (Setup(phi1, phi1, phi0, el, k0, m).Ok? ==> Setup(phi1, phi1, phi0, el, k0, m).value.n == m.sin(phi1))
  {
  }

  /** Standard parallels `L` and `-L` are rejected, whatever `L` is. */
  lemma OppositeParallelsRejected(lat: real, phi0: real, el: Ellipsoid, k0: real, m: Externals)
    ensures Setup(lat, -lat, phi0, el, k0, m) == Err(ProjErrConicLatEqual)
  {
  }

  /**
   * The pole round trip: a pole that `forward` accepts maps to the point
   * `(0, k0 * rho0)`, which `inverse` maps back to the same pole (longitude
   * 0, latitude exactly a right angle of the same sign), within the
   * tolerance of the input latitude. Assumes that `hypot(0, 0) = 0` and
   * that descaling the projected pole by `k0` gives back exactly `0` and
   * `rho0`. IEEE division is correctly rounded but not exact, so
   * `(k0 * rho0) / k0` can differ from `rho0` in the last place; the
   * radius is then tiny but nonzero and `inverse` takes the general branch.
   */
  lemma PoleRoundTrip(p: Lcc, m: Externals, lam: real, phi: real, z: real)
    requires m.hypot(0.0, 0.0) == 0.0
    requires m.div(0.0, p.k0) == 0.0 && m.div(p.k0 * p.rho0, p.k0) == p.rho0
    requires NearPole(phi) && Forward(p, m, lam, phi, z).Ok?
    ensures var (x, y, z1) := Forward(p, m, lam, phi, z).value;
      && Inverse(p, m, x, y, z1) == Ok((0.0, if phi > 0.0 then FRAC_PI_2 else -FRAC_PI_2, z))
      && Abs(Inverse(p, m, x, y, z1).value.1 - phi) < EPS_10
  {
    var (x, y, z1) := Forward(p, m, lam, phi, z).value;
    assert x == 0.0 && y == p.k0 * p.rho0;
    assert m.div(x, p.k0) == 0.0;
    assert m.div(y, p.k0) == p.rho0;
    assert Radius(p, m, x, y) == 0.0;
    assert phi * p.n > 0.0;
    assert p.n > 0.0 <==> phi > 0.0;
  }
}
