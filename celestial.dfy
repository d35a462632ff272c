/** Directions on the sky and the clock of the sky: the equatorial
    direction of a star, the rotation from equatorial to horizontal
    coordinates, and Greenwich mean sidereal time (hoshizora.js:102-167).

    Math.sin, Math.cos, 1 / Math.tan, Math.asin and Math.atan2 are not
    computed: a Trig value carries them, and the lemmas that need one of
    their textbook properties say so with a predicate on it. */
module Celestial {
  import opened Numeric
  import opened M4

  /** The transcendental functions the viewer takes from Math; `cot`
      stands for x |-> 1 / Math.tan(x). */
  datatype Trig = Trig(sin: real -> real, cos: real -> real, cot: real -> real,
                       asin: real -> real, atan2: (real, real) -> real)

  /** sin² + cos² = 1 at every angle. */
  ghost predicate Pythagorean(trig: Trig)
  {
    forall x: real :: trig.sin(x) * trig.sin(x) + trig.cos(x) * trig.cos(x) == 1.0
  }

  /** Math.asin maps [-1, 1] into [-π/2, π/2]. */
  ghost predicate AsinInRange(trig: Trig)
  {
    forall y: real :: -1.0 <= y <= 1.0 ==> -Pi / 2.0 <= trig.asin(y) <= Pi / 2.0
  }

  /** Math.atan2 lies in (-π, π]. */
  ghost predicate Atan2InRange(trig: Trig)
  {
    forall y: real, x: real :: -Pi < trig.atan2(y, x) <= Pi
  }

  /** The horizontal direction of a star, in degrees. */
  datatype Horizontal = Horizontal(az: real, el: real)

  /** dirRADec(ra, dec): x toward 6h, y toward the north celestial pole,
      z toward 0h (the vernal equinox); w = 1.  When sin² + cos² = 1 at ra
      and at dec (as for a textbook sine and cosine) the direction is a unit
      vector. */
  function DirRADec(trig: Trig, ra: real, dec: real): (d: Vec4)
    ensures d[1] == trig.sin(dec) && d[3] == 1.0
    ensures OnUnitCircle(trig, ra) && OnUnitCircle(trig, dec) ==> Norm3(d) == 1.0
  {
    UnitDirection(trig, ra, dec);
    [trig.cos(dec) * trig.sin(ra), trig.sin(dec), trig.cos(dec) * trig.cos(ra), 1.0]
  }

  /** sin² + cos² = 1 at the angle x. */
  predicate OnUnitCircle(trig: Trig, x: real)
  {
    trig.sin(x) * trig.sin(x) + trig.cos(x) * trig.cos(x) == 1.0
  }

  lemma UnitDirection(trig: Trig, ra: real, dec: real)
    ensures var cd, sd, cr, sr := trig.cos(dec), trig.sin(dec), trig.cos(ra), trig.sin(ra);
            OnUnitCircle(trig, ra) && OnUnitCircle(trig, dec) ==>
              (cd * sr) * (cd * sr) + sd * sd + (cd * cr) * (cd * cr) == 1.0
  {
    if OnUnitCircle(trig, ra) && OnUnitCircle(trig, dec) {
      UnitSphere(trig.cos(dec), trig.sin(dec), trig.cos(ra), trig.sin(ra));
    }
  }

  /** The squared length of the x, y, z part. */
  function Norm3(v: Vec4): real
  {
    v[0] * v[0] + v[1] * v[1] + v[2] * v[2]
  }

  lemma UnitSphere(cd: real, sd: real, cr: real, sr: real)
    requires sd * sd + cd * cd == 1.0 && sr * sr + cr * cr == 1.0
    ensures (cd * sr) * (cd * sr) + sd * sd + (cd * cr) * (cd * cr) == 1.0
  {
    assert (cd * sr) * (cd * sr) + (cd * cr) * (cd * cr) == (cd * cd) * (sr * sr + cr * cr);
  }

  /** convertRADecToAzEl: the star's direction turned into the horizontal
      frame (x east, y zenith, z south); azimuth atan2(-x, z) and elevation
      asin(y), both in degrees.  The elevation lies in [-90°, 90°] whenever
      Math.asin returns a value in its range [-π/2, π/2] at y, and with
      Math.atan2 in (-π, π] the azimuth lies in (-180°, 180°]. */
  function ConvertRADecToAzEl(trig: Trig, ra: real, dec: real, matEquToHor: Mat4): (h: Horizontal)
    ensures var p := MulV4(matEquToHor, DirRADec(trig, ra, dec));
            h.el * Pi / 180.0 == trig.asin(p[1]) && h.az * Pi / 180.0 == trig.atan2(-p[0], p[2])
    ensures var p := MulV4(matEquToHor, DirRADec(trig, ra, dec));
            -Pi / 2.0 <= trig.asin(p[1]) <= Pi / 2.0 ==> -90.0 <= h.el <= 90.0
    ensures Atan2InRange(trig) ==> -180.0 < h.az <= 180.0
  {
    var dirHorizontal := MulV4(matEquToHor, DirRADec(trig, ra, dec));
    var x, y, z := dirHorizontal[0], dirHorizontal[1], dirHorizontal[2];
    InDegrees(trig, x, y, z);
    Horizontal(trig.atan2(-x, z) * 180.0 / Pi, trig.asin(y) * 180.0 / Pi)
  }

  /** Radians in [-π/2, π/2] and (-π, π] are degrees in [-90, 90] and
      (-180, 180]. */
  lemma InDegrees(trig: Trig, x: real, y: real, z: real)
    ensures -Pi / 2.0 <= trig.asin(y) <= Pi / 2.0 ==> -90.0 <= trig.asin(y) * 180.0 / Pi <= 90.0
    ensures Atan2InRange(trig) ==> -180.0 < trig.atan2(-x, z) * 180.0 / Pi <= 180.0
  {
    if Atan2InRange(trig) {
      var a := trig.atan2(-x, z);
      assert -Pi < a <= Pi;
    }
  }

  /** With Math.asin in its range, a direction whose horizontal y lies in
      [-1, 1] has elevation in [-90°, 90°]. */
  lemma ElevationInRange(trig: Trig, ra: real, dec: real, matEquToHor: Mat4)
    requires AsinInRange(trig)
    requires -1.0 <= MulV4(matEquToHor, DirRADec(trig, ra, dec))[1] <= 1.0
    ensures -90.0 <= ConvertRADecToAzEl(trig, ra, dec, matEquToHor).el <= 90.0
  {
    var y := MulV4(matEquToHor, DirRADec(trig, ra, dec))[1];
    assert -Pi / 2.0 <= trig.asin(y) <= Pi / 2.0;
  }

  // ---------------------------------------------------------------------
  // Sidereal time

  /** The unnormalised sidereal angle of convertUnixSecondsToGreenwichMeanSiderealTime:
      the IAU 1982 polynomial in Julian centuries since J2000.0 plus the
      fraction of the current day, in radians. */
  function SiderealAngle(unixSeconds: real): real
  {
    var jd00 := unixSeconds / Sec24h + (2440587.5 - 2451545.0);
    var t := jd00 / 36525.0;
    var f := Sec24h * JsRem(jd00, 1.0);
    var a := 24110.54841 - Sec24h / 2.0;
    var b := 8640184.812866;
    var c := 0.093104;
    var d := -0.0000062;
    ((a + (b + (c + d * t) * t) * t) + f) * Sec2Rad
  }

  /** Lines 149-150: the truncated remainder modulo 2π, moved up by 2π when
      negative.  The result is in [0, 2π) and is the same angle. */
  function NormalizeAngle(g: real): (r: real)
    ensures 0.0 <= r < TwoPi
    ensures IsInteger((g - r) / TwoPi)
  {
    var n := JsRem(g, TwoPi);
    if n < 0.0 then
      ShiftByTurn(g, n);
      TwoPi + n
    else n
  }

  lemma ShiftByTurn(g: real, n: real)
    requires IsInteger((g - n) / TwoPi)
    ensures IsInteger((g - (TwoPi + n)) / TwoPi)
  {
    assert g - (TwoPi + n) == (g - n) - TwoPi;
    DivShiftOne(g - n, TwoPi);
    IntegerMinusOne((g - n) / TwoPi);
  }

  /** convertUnixSecondsToGreenwichMeanSiderealTime. */
  function Gmst(unixSeconds: real): (r: real)
    ensures 0.0 <= r < TwoPi
    ensures IsInteger((SiderealAngle(unixSeconds) - r) / TwoPi)
  {
    NormalizeAngle(SiderealAngle(unixSeconds))
  }

  /** The normalisation is the floored modulo: g - 2π * floor(g / 2π). */
  lemma NormalizeIsFlooredModulo(g: real)
    ensures NormalizeAngle(g) == g - TwoPi * (g / TwoPi).Floor as real
  {
    FlooredRemainder(g, NormalizeAngle(g), TwoPi);
  }

  /** An angle already in [0, 2π) is returned unchanged. */
  lemma NormalizeKeepsRange(g: real)
    requires 0.0 <= g < TwoPi
    ensures NormalizeAngle(g) == g
  {
    NormalizeIsFlooredModulo(g);
    DivBelowOne(g, TwoPi);
  }

  /** At J2000.0 (Unix time 946728000, 2000-01-01 12:00 UT) the Julian date
      offset is zero and the sidereal time is 24110.54841 s - 12 h, moved up
      by a full turn: about 4.894961 rad (18h 41m 50.5s). */
  lemma GmstAtJ2000()
    ensures Gmst(946728000.0) == TwoPi + (24110.54841 - 43200.0) * Sec2Rad
    ensures 4.89496 < Gmst(946728000.0) < 4.89497
  {
    assert 946728000.0 / Sec24h + (2440587.5 - 2451545.0) == 0.0;
    assert JsRem(0.0, 1.0) == 0.0;
    var g := SiderealAngle(946728000.0);
    assert g == (24110.54841 - 43200.0) * Sec2Rad;
    assert JsRem(g, TwoPi) == g;
  }

  // ---------------------------------------------------------------------
  // Equatorial to horizontal

  /** updateEquToHorMatrix: the sidereal time st at the whole second of
      nowMillis plus the east longitude, and the matrix
      rotX((lat - 90)°) * rotY(-st), multiplied out. */
  function EquToHorMatrix(trig: Trig, lat: real, lng: real, nowMillis: real): Mat4
  {
    var st := Gmst((nowMillis / 1000.0).Floor as real) + lng * Deg2Rad;
    var tilt := (lat - 90.0) * Deg2Rad;
    PitchTurn(trig.cos(tilt), trig.sin(tilt), trig.cos(-st), trig.sin(-st))
  }

  /** That is the product updateEquToHorMatrix computes with mulM4. */
  lemma EquToHorMatrixIsProduct(trig: Trig, lat: real, lng: real, nowMillis: real)
    ensures var st := Gmst((nowMillis / 1000.0).Floor as real) + lng * Deg2Rad;
            var tilt := (lat - 90.0) * Deg2Rad;
            MulM4(RotX(trig.cos(tilt), trig.sin(tilt)), RotY(trig.cos(-st), trig.sin(-st)))
              == EquToHorMatrix(trig, lat, lng, nowMillis)
  {
    var st := Gmst((nowMillis / 1000.0).Floor as real) + lng * Deg2Rad;
    var tilt := (lat - 90.0) * Deg2Rad;
    RotXTimesRotY(trig.cos(tilt), trig.sin(tilt), trig.cos(-st), trig.sin(-st));
  }

  /** The north celestial pole (0, 1, 0) is lifted to the latitude by the
      tilt alone: where it appears does not depend on the time or on the
      longitude. */
  lemma PoleIgnoresTime(trig: Trig, lat: real, lng: real, nowMillis: real)
    ensures var tilt := (lat - 90.0) * Deg2Rad;
            var p := MulV4(EquToHorMatrix(trig, lat, lng, nowMillis), [0.0, 1.0, 0.0, 1.0]);
            p[0] == 0.0 && p[1] == trig.cos(tilt) && p[2] == trig.sin(tilt) && p[3] == 1.0
  {
    var st := Gmst((nowMillis / 1000.0).Floor as real) + lng * Deg2Rad;
    var tilt := (lat - 90.0) * Deg2Rad;
    var c, s := trig.cos(tilt), trig.sin(tilt);
    var cy, sy := trig.cos(-st), trig.sin(-st);
    var ns, nc := -(c * sy), -(s * cy);
    MulV4OfDisplays(cy, s * sy, ns, 0.0, 0.0, c, s, 0.0, sy, nc, c * cy, 0.0, 0.0, 0.0, 0.0, 1.0,
                    0.0, 1.0, 0.0, 1.0);
  }

  /** rotX keeps lengths when (c, s) lies on the unit circle. */
  lemma RotXKeepsLength(c: real, s: real, v: Vec4)
    requires c * c + s * s == 1.0
    ensures Norm3(MulV4(RotX(c, s), v)) == Norm3(v)
    ensures MulV4(RotX(c, s), v)[3] == v[3]
  {
    MulV4OfDisplays(1.0, 0.0, 0.0, 0.0, 0.0, c, s, 0.0, 0.0, -s, c, 0.0, 0.0, 0.0, 0.0, 1.0,
                    v[0], v[1], v[2], v[3]);
    PlaneRotationKeepsLength(c, s, v[1], v[2], c * v[1] + -s * v[2], s * v[1] + c * v[2]);
  }

  /** rotY keeps lengths when (c, s) lies on the unit circle. */
  lemma RotYKeepsLength(c: real, s: real, v: Vec4)
    requires c * c + s * s == 1.0
    ensures Norm3(MulV4(RotY(c, s), v)) == Norm3(v)
    ensures MulV4(RotY(c, s), v)[3] == v[3]
  {
    MulV4OfDisplays(c, 0.0, -s, 0.0, 0.0, 1.0, 0.0, 0.0, s, 0.0, c, 0.0, 0.0, 0.0, 0.0, 1.0,
                    v[0], v[1], v[2], v[3]);
    PlaneRotationKeepsLength(c, -s, v[0], v[2], c * v[0] + s * v[2], -s * v[0] + c * v[2]);
  }

  lemma PlaneRotationKeepsLength(c: real, s: real, a: real, b: real, a2: real, b2: real)
    requires c * c + s * s == 1.0
    requires a2 == c * a + -s * b && b2 == s * a + c * b
    ensures a2 * a2 + b2 * b2 == a * a + b * b
  {
    assert a2 * a2 + b2 * b2 == (c * c + s * s) * (a * a + b * b);
  }

  /** With a textbook sine and cosine, the equatorial-to-horizontal matrix
      keeps a star's direction on the unit sphere. */
  lemma EquToHorKeepsLength(trig: Trig, lat: real, lng: real, nowMillis: real, v: Vec4)
    requires Pythagorean(trig)
    ensures Norm3(MulV4(EquToHorMatrix(trig, lat, lng, nowMillis), v)) == Norm3(v)
  {
    var st := Gmst((nowMillis / 1000.0).Floor as real) + lng * Deg2Rad;
    var tilt := (lat - 90.0) * Deg2Rad;
    assert trig.sin(tilt) * trig.sin(tilt) + trig.cos(tilt) * trig.cos(tilt) == 1.0;
    assert trig.sin(-st) * trig.sin(-st) + trig.cos(-st) * trig.cos(-st) == 1.0;
    PitchTurnKeepsLength(trig.cos(tilt), trig.sin(tilt), trig.cos(-st), trig.sin(-st), v);
  }

  /** Turning, then pitching, keeps the length of the direction part. */
  lemma PitchTurnKeepsLength(c: real, s: real, cy: real, sy: real, v: Vec4)
    requires c * c + s * s == 1.0 && cy * cy + sy * sy == 1.0
    ensures Norm3(MulV4(PitchTurn(c, s, cy, sy), v)) == Norm3(v)
  {
    PitchTurnApplies(c, s, cy, sy, v);
    RotYKeepsLength(cy, sy, v);
    RotXKeepsLength(c, s, MulV4(RotY(cy, sy), v));
  }

  /** A star's elevation, as the constructor computes it from ra and dec,
      lies in [-90°, 90°] and its azimuth in (-180°, 180°]: Math.asin is
      only ever asked about a number in [-1, 1]. */
  lemma HorizontalInRange(trig: Trig, lat: real, lng: real, nowMillis: real, ra: real, dec: real)
    requires Pythagorean(trig) && AsinInRange(trig) && Atan2InRange(trig)
    ensures var h := ConvertRADecToAzEl(trig, ra, dec, EquToHorMatrix(trig, lat, lng, nowMillis));
            -90.0 <= h.el <= 90.0 && -180.0 < h.az <= 180.0
  {
    var m := EquToHorMatrix(trig, lat, lng, nowMillis);
    var d := DirRADec(trig, ra, dec);
    var p := MulV4(m, d);
    assert OnUnitCircle(trig, ra) && OnUnitCircle(trig, dec);
    assert Norm3(d) == 1.0;
    EquToHorKeepsLength(trig, lat, lng, nowMillis, d);
    assert Norm3(p) == 1.0;
    UnitComponent(p[1], p[0], p[2]);
    ElevationInRange(trig, ra, dec, m);
  }

  lemma UnitComponent(y: real, a: real, b: real)
    requires a * a + y * y + b * b == 1.0
    ensures -1.0 <= y <= 1.0
  {
    assert y * y <= 1.0;
  }
}
