# proj4rs core, modelled in Dafny

This project models four parts of `proj4rs`, a Rust port of PROJ's coordinate
projections:

- **Errors** (`errors.dfy`): the crate's `Error` enum, each variant's display
  message, and the `Result` alias, with the `?` operator modelled through
  Dafny's `:-`.
- **Units** (`units.dfy`): the `UNITS` table of length units and
  `find_unit_to_meter`, a lookup that ignores ASCII case.
- **Lambert Conformal Conic** (`lcc.dfy`): the projection's `init`, `forward`
  and `inverse`, plus `has_forward` and `has_inverse`. The model keeps every
  branch, tolerance test and error of the source. The transcendental
  functions and the helpers `msfn`, `tsfn` and `phi2` are given functions
  (the `Externals` record), so their values are not modelled.
- **geo-types adaptors** (`geo_types.dfy`): `transform_coordinates` for
  `Coord`, `Point`, `MultiPoint`, `Line` and `LineString`. Each applies a
  fallible per-coordinate closure in order and stops at the first error.
  `MultiPoint` and `LineString` update an array in place. `Coord`, `Point`
  and `Line` are passed in and returned as values.
- `project_geometry.dfy` connects the two: a line string pushed through the
  forward projection.

`Options.Option` stands in for Rust's `Option`.

## Model

| member | source | states |
|---|---|---|
| Errors.Message | src/errors.rs:7-48 | The display text of each variant: the two payload variants print their string, and every other variant prints its fixed message. Its properties are stated by the next three rows. |
| Errors.PayloadMessage | src/errors.rs:7-20 | The two variants that carry a string display exactly that string. |
| Errors.MessageKeyRoundTrip | src/errors.rs:9-48 | Every variant without a payload can be recovered from its own message. |
| Errors.FixedMessagesDistinct | src/errors.rs:9-48 | Two variants without a payload have the same message if and only if they are the same variant. |
| Errors.Ordinal | src/errors.rs:5-49 | Every variant has a position below 21 in declaration order. `InputStringError` is at 0 and `InvalidParameterValue` at 6. |
| Errors.VariantAt | src/errors.rs:5-49 | Each position below 21 names a variant at that position, and a payload variant carries the given detail. |
| Units.EqIgnoreAsciiCase | src/units.rs:37 | Two names match iff they are equal after ASCII lower-casing: same length, and equal position by position after folding. |
| Units.FindFrom | src/units.rs:35-37 | Returns the first row at or after `from` whose id matches ignoring ASCII case. Returns none exactly when no such row exists. |
| Units.FindUnitToMeter | src/units.rs:34-39 | Returns none exactly when no id matches. Otherwise returns the factor of the first matching row. |
| Units.IdsDistinct | src/units.rs:8-30 | No two rows of the table have ids that match ignoring ASCII case. |
| Units.EqIgnoreAsciiCaseEquivalence | src/units.rs:37 | Matching ignoring ASCII case is reflexive, symmetric and transitive. |
| Units.CaseFoldingMatches | src/units.rs:37 | Upper- or lower-casing a name keeps it matching itself. |
| Units.FindFromIgnoresCase | src/units.rs:35-37 | Two names that match ignoring case find the same row. |
| Units.LookupIgnoresCase | src/units.rs:34-39 | An upper-cased or lower-cased query returns the same result as the original. |
| Units.OnlyMatch | src/units.rs:34-39 | Any row that matches the name is the one whose factor is returned. |
| Units.LookupRow | src/units.rs:8-39 | Looking up any row's own id returns that row's factor. |
| Units.FactorsPositive | src/units.rs:8-30 | Every factor in the table is strictly positive. |
| Units.KnownFactors | src/units.rs:9-16 | `m`, `km`, `kmi` and `ft` look up to 1, 1000, 1852 and 0.3048. |
| Units.SurveyRows | src/units.rs:22-26 | The U.S. survey rows are exact ratios over 3937. Inch, yard, chain and mile are 1/12, 3, 66 and 5280 survey feet. |
| Units.FootBasedRows | src/units.rs:15-29 | The international inch, yard, mile, fathom, chain and link are the usual multiples of the 0.3048 m foot. The Indian yard and chain are multiples of the Indian foot. |
| Units.NoMatch | src/units.rs:34-39 | A name whose length, first and last letter fit no row is not found. |
| Units.UnknownUnits | src/units.rs:34-39 | `furlong` and the empty name are not found. |
| Units.FingerprintIdentifiesRow | src/units.rs:8-30 | Each row's id is told apart from every other row's by its length and first and last letters. |
| Lcc.StandardParallels | src/projections/lcc.rs:41-45 | An error reading `lat_1` or `lat_2` is propagated, `lat_1` first. A missing `lat_1` is 0. A missing `lat_2` equals `lat_1`. |
| Lcc.SeedPhi0 | src/projections/lcc.rs:42-45 | A `phi0` that is already set never changes. An unset `phi0` becomes `lat_1` only when `lat_2` is absent and both reads succeed. |
| Lcc.Constants | src/projections/lcc.rs:52-107 | Stores `phi1`, `phi2`, `e` and `k0`. The projection is ellipsoidal iff `es != 0`. With one standard parallel, `n = sin(phi1)`. `rho0 = 0` when `phi0` is at a pole. |
| Lcc.Setup | src/projections/lcc.rs:48-107 | Fails with `ProjErrConicLatEqual` exactly when the sum of the two parallels is below 1e-10 in absolute value. Otherwise returns the constants. |
| Lcc.Init | src/projections/lcc.rs:40-108 | Propagates a parameter-read error and seeds `phi0` as `SeedPhi0` says. Otherwise returns `Setup` on the parallels and the resolved `phi0`. |
| Lcc.Forward | src/projections/lcc.rs:111-134 | Fails with `ToleranceConditionError` exactly at a pole with `phi * n <= 0`. `z` passes through unchanged. At a pole that is allowed, the result is `(0, k0 * rho0)`. |
| Lcc.Orient | src/projections/lcc.rs:147-151 | When `n < 0`, negates `rho`, `x` and `y` together, so `rho` takes the sign of `n`. Otherwise leaves them unchanged. |
| Lcc.Inverse | src/projections/lcc.rs:137-163 | A zero radius gives longitude 0 and latitude pi/2 when `n > 0`, otherwise -pi/2. The spherical branch never fails. On the ellipsoidal branch with a nonzero radius, the result fails iff `phi2` fails, with `phi2`'s error, and otherwise its latitude is `phi2`'s value. Otherwise the longitude is `atan2` of the oriented `x` and `y` over `n`, and the spherical latitude is computed from the oriented radius. `z` passes through unchanged. |
| Lcc.HasForward | src/projections/lcc.rs:169-171 | Always true. |
| Lcc.HasInverse | src/projections/lcc.rs:165-167 | Always true. |
| Lcc.SeedPhi0Idempotent | src/projections/lcc.rs:42-45 | Seeding `phi0` a second time changes nothing. |
| Lcc.OmittedSecondParallel | src/projections/lcc.rs:41-56 | Without `lat_2`, both parallels equal `lat_1`, so the cone is a tangent cone with `n = sin(lat_1)`. |
| Lcc.OppositeParallelsRejected | src/projections/lcc.rs:47-50 | Parallels of equal magnitude on opposite sides of the equator are rejected with `ProjErrConicLatEqual`. |
| Lcc.PoleRoundTrip | src/projections/lcc.rs:111-163 | Inverting a projected pole point recovers that pole within 1e-10, with `z` unchanged, provided descaling the projected pole by `k0` is exact. |
| GeoTypes.Traverse | src/adaptors/geo_types.rs:25-26 | The fail-fast `try_for_each` over mutable elements (also at lines 42-43). The output has as many elements as the input. `TraverseSpec` says what it computes. |
| GeoTypes.FirstFailure | src/adaptors/geo_types.rs:25-26 | Returns the index of the first element whose step fails, or the length when none does. |
| GeoTypes.TraverseSpec | src/adaptors/geo_types.rs:23-45 | A fail-fast traversal returns the first failing element's error, or success. Elements before it take their new values, and it and later elements are untouched. |
| GeoTypes.TraverseSucceeds | src/adaptors/geo_types.rs:23-45 | The traversal succeeds iff every element's step succeeds. It then maps every element. |
| GeoTypes.TraverseUniform | src/adaptors/geo_types.rs:80-86 | N equal inputs give N equal outputs. If their step fails, the error is returned and nothing changes. |
| GeoTypes.TransformCoord | src/adaptors/geo_types.rs:8-15 | On success, the coordinate becomes the closure's output. On failure, the closure's error is returned and the coordinate is unchanged. |
| GeoTypes.TransformPoint | src/adaptors/geo_types.rs:17-21 | Behaves exactly like the transform of the point's coordinate. |
| GeoTypes.TransformLine | src/adaptors/geo_types.rs:30-38 | Start first, then end. The line is replaced only when both succeed. An error from either leaves the whole line unchanged, and `end` is not visited when `start` fails. |
| GeoTypes.LineString.TransformCoordinates | src/adaptors/geo_types.rs:40-45 | Updates the array in place exactly as `Traverse` does. Coordinates are visited in index order, stopping at the first failure. |
| GeoTypes.MultiPoint.TransformCoordinates | src/adaptors/geo_types.rs:23-28 | Updates the array in place exactly as `Traverse` does over the points. Points are visited in index order, stopping at the first failure. |
| ProjectGeometry.WrongSidePoleFailsLineString | src/adaptors/geo_types.rs:40-45 | A line string containing a pole on the wrong side of the cone fails with `ToleranceConditionError`. Coordinates before the first such pole are projected, and that pole and later coordinates keep their input values. |
| ProjectGeometry.OffPoleLineStringSucceeds | src/projections/lcc.rs:111-134 | A line string with no pole coordinate projects every coordinate and succeeds. |
| ProjectGeometry.ForwardStepFails | src/projections/lcc.rs:112-117 | The per-coordinate forward step fails exactly at a pole on the wrong side of the cone, and then always with `ToleranceConditionError`. |

## Left out

- Floating point: values are mathematical reals. NaN, infinities and
  rounding are not modelled. Division in `lcc.rs` is the given `div`
  function, and `+`, `-`, `*` are exact.
- Transcendental functions: `sin`, `cos`, `tan`, `atan`, `ln`, `powf`,
  `hypot`, `atan2` and the helpers `msfn`, `tsfn` and `phi2` are given as
  fields of `Lcc.Externals`. Their numeric values are not modelled. The
  contracts state which branch is taken, which error is returned, the values
  at the poles, and that `z` passes through. For `inverse` away from the
  pole, they also state how the inputs are oriented and where `atan2`,
  `atan` and `phi2` enter the result. The values `forward` returns away from
  the poles are not characterized.
- `crate::consts` is not part of this model. `EPS_10`, `FRAC_PI_2` and
  `FRAC_PI_4` are written as decimal reals.
- `ProjData::phi0()`, `ProjData::k0()`, the ellipsoid and the parameter
  list's `try_angular_value` are not part of this model:
  - `phi0()` is the given `phi0Of`;
  - `k0` is a field;
  - only `es` and `e` of the ellipsoid are kept;
  - the parameter lookup is a function from name to result.
- Lcc.Constants: the secant value of `n` (the logarithm ratio) is computed
  with the given functions but not characterized.
- Lcc.Inverse: the error on the ellipsoidal branch is whatever the given
  `phi2` returns. `phi2` is not part of this model, so the contract does not
  pin that error to `NonInvPhi2Convergence`.
- Lcc.PoleRoundTrip: assumes `hypot(0, 0) = 0`, `0 / k0 = 0` and
  `(k0 * rho0) / k0 = rho0`. IEEE division is correctly rounded, not exact,
  so the last of these can fail in the last place. The radius is then tiny
  but nonzero, `inverse` takes its general branch, and the round trip is not
  covered.
- The `projection!` macro, the registration of the projection, and the
  literal numeric test vectors of `lcc.rs` are not part of this model.
- Units.FindUnitToMeter: `eq_ignore_ascii_case` compares bytes, and the
  model compares characters. The two agree: folding changes only ASCII
  letters, and no ASCII byte occurs inside a multi-byte UTF-8 sequence. The `to_meter` text and the name columns
  are kept but not proved about.
- The closure is a pure function. The state of an `FnMut` closure across
  calls is not modelled. The order of visits is stated through the ghost
  `visited` sequence and the error returned.
- `transform.rs`, with the `Transform` implementation for `(f64, f64)` that
  the `Coord` adaptor calls, is not part of this model. `GeoTypes.CoordStep`
  assumes that implementation applies the closure to `(x, y)` once and
  stores the returned pair only on success.
- GeoTypes.TransformLine: `Line::points()` and `Line::new` convert through
  `Point`s. The model goes through the coordinates directly, which has the
  same effect because a point's transform is its coordinate's.
- Error messages are not interpolated beyond the two variants that display
  their payload. `Debug` formatting is not modelled.
