/** The camera of the star chart (StarChart, hoshizora.js:157-268): the
    vertical field of view and the viewing direction, the projection and
    view matrices built from them, and the setters that keep them in step.

    The renderer is not modelled; a ghost counter `frames` stands for the
    calls of renderer.drawFrame, and `projectionUpdates` for the rebuilds
    of the projection matrix. */
module Chart {
  import opened Numeric
  import opened M4
  import opened Celestial

  /** The numeric options of the page; None where typeof(...) != "number". */
  datatype Options = Options(lat: Option<real>, lng: Option<real>, fov: Option<real>,
                             ra: Option<real>, dec: Option<real>, az: Option<real>, el: Option<real>)

  function OrElse(o: Option<real>, default: real): real
  {
    if o.Some? then o.value else default
  }

  /** The projection matrix for a field of view and a screen, multiplied
      out: the perspective (near 0.0125, far 3.0) with its last column
      shifted by translate(0, 0, -1).  The stereographic flag of the source
      is always on. */
  function ProjectionMatrix(cot: real -> real, fovY: real, screenWidth: real, screenHeight: real): Mat4
    requires 0.0 < screenWidth
  {
    var h := cot(fovY * Deg2Rad / 2.0);
    var w := h * (screenHeight / screenWidth);
    var d := 0.0125 - 3.0;
    var a, b := (3.0 + 0.0125) / d, 2.0 * 0.0125 * 3.0 / d;
    [w, 0.0, 0.0, 0.0,
     0.0, h, 0.0, 0.0,
     0.0, 0.0, a, -1.0,
     0.0, 0.0, b - a, 1.0]
  }

  /** updateProjectionMatrix computes exactly that matrix:
      mulM4(perspective(fovY, w, h, 0.0125, 3.0), translate(0, 0, -1)). */
  lemma ProjectionMatrixIsProduct(cot: real -> real, fovY: real, screenWidth: real, screenHeight: real)
    requires 0.0 < screenWidth
    ensures MulM4(Perspective(cot, fovY, screenWidth, screenHeight, 0.0125, 3.0), Translate(0.0, 0.0, -1.0))
         == ProjectionMatrix(cot, fovY, screenWidth, screenHeight)
  {
    var h := cot(fovY * Deg2Rad / 2.0);
    var w := h * (screenHeight / screenWidth);
    var d := 0.0125 - 3.0;
    var a, b := (3.0 + 0.0125) / d, 2.0 * 0.0125 * 3.0 / d;
    var p := [w, 0.0, 0.0, 0.0, 0.0, h, 0.0, 0.0, 0.0, 0.0, a, -1.0, 0.0, 0.0, b, 0.0];
    EqualEntries(Perspective(cot, fovY, screenWidth, screenHeight, 0.0125, 3.0), p);
    EqualEntries(MulM4(p, Translate(0.0, 0.0, -1.0)), ProjectionMatrix(cot, fovY, screenWidth, screenHeight));
  }

  /** The stereographic projection: a point is projected as the perspective
      sees it from (0, 0, 1), one unit behind the centre of the unit sky
      sphere. */
  lemma ProjectionIsShiftedPerspective(cot: real -> real, fovY: real, screenWidth: real, screenHeight: real,
                                       x: real, y: real, z: real)
    requires 0.0 < screenWidth
    ensures MulV4(ProjectionMatrix(cot, fovY, screenWidth, screenHeight), [x, y, z, 1.0])
         == MulV4(Perspective(cot, fovY, screenWidth, screenHeight, 0.0125, 3.0), [x, y, z - 1.0, 1.0])
  {
    var p := Perspective(cot, fovY, screenWidth, screenHeight, 0.0125, 3.0);
    ProjectionMatrixIsProduct(cot, fovY, screenWidth, screenHeight);
    MulV4OfProduct(p, Translate(0.0, 0.0, -1.0), [x, y, z, 1.0]);
    TranslateMovesPoint(0.0, 0.0, -1.0, x, y, z);
    assert [x + 0.0, y + 0.0, z + -1.0, 1.0] == [x, y, z - 1.0, 1.0];
  }

  /** The pitch of the view, rotX(-viewEl°). */
  function PitchRotation(trig: Trig, viewEl: real): Mat4
  {
    var pitch := -viewEl * Deg2Rad;
    RotX(trig.cos(pitch), trig.sin(pitch))
  }

  /** The turn of the view, rotY((180 + viewAz)°). */
  function TurnRotation(trig: Trig, viewAz: real): Mat4
  {
    var yaw := (180.0 + viewAz) * Deg2Rad;
    RotY(trig.cos(yaw), trig.sin(yaw))
  }

  /** The view matrix for a direction, rotX(-viewEl°) * rotY((180 + viewAz)°)
      multiplied out. */
  function ViewMatrix(trig: Trig, viewAz: real, viewEl: real): Mat4
  {
    var pitch := -viewEl * Deg2Rad;
    var yaw := (180.0 + viewAz) * Deg2Rad;
    PitchTurn(trig.cos(pitch), trig.sin(pitch), trig.cos(yaw), trig.sin(yaw))
  }

  /** updateViewMatrix computes exactly that matrix:
      mulM4(rotX(-viewEl°), rotY((180 + viewAz)°)). */
  lemma ViewMatrixIsProduct(trig: Trig, viewAz: real, viewEl: real)
    ensures MulM4(PitchRotation(trig, viewEl), TurnRotation(trig, viewAz)) == ViewMatrix(trig, viewAz, viewEl)
  {
    var pitch := -viewEl * Deg2Rad;
    var yaw := (180.0 + viewAz) * Deg2Rad;
    RotXTimesRotY(trig.cos(pitch), trig.sin(pitch), trig.cos(yaw), trig.sin(yaw));
  }

  /** The zenith (0, 1, 0) is placed by the elevation alone: turning in
      azimuth never rolls the picture. */
  lemma ViewZenithIgnoresAzimuth(trig: Trig, viewAz: real, viewEl: real)
    ensures var pitch := -viewEl * Deg2Rad;
            var p := MulV4(ViewMatrix(trig, viewAz, viewEl), [0.0, 1.0, 0.0, 1.0]);
            p[0] == 0.0 && p[1] == trig.cos(pitch) && p[2] == trig.sin(pitch) && p[3] == 1.0
  {
    var pitch := -viewEl * Deg2Rad;
    var yaw := (180.0 + viewAz) * Deg2Rad;
    var c, s := trig.cos(pitch), trig.sin(pitch);
    var cy, sy := trig.cos(yaw), trig.sin(yaw);
    var ns, nc := -(c * sy), -(s * cy);
    MulV4OfDisplays(cy, s * sy, ns, 0.0, 0.0, c, s, 0.0, sy, nc, c * cy, 0.0, 0.0, 0.0, 0.0, 1.0,
                    0.0, 1.0, 0.0, 1.0);
  }

  /** updateEquToHorMatrix: the sidereal time at the whole second of
      nowMillis plus the east longitude, and the product
      rotX((lat - 90)°) * rotY(-st). */
  method UpdateEquToHorMatrix(trig: Trig, lat: real, lng: real, nowMillis: real) returns (m: Mat4)
    ensures m == EquToHorMatrix(trig, lat, lng, nowMillis)
  {
    var st := Gmst((nowMillis / 1000.0).Floor as real) + lng * Deg2Rad;
    var tilt := (lat - 90.0) * Deg2Rad;
    m := MulM4(RotX(trig.cos(tilt), trig.sin(tilt)), RotY(trig.cos(-st), trig.sin(-st)));
    EquToHorMatrixIsProduct(trig, lat, lng, nowMillis);
  }

  /** The first viewing direction: that of ra and dec through the
      equatorial-to-horizontal matrix m when both are given, otherwise
      options.az and options.el, each defaulting to 0. */
  ghost function InitialDirection(trig: Trig, options: Options, m: Mat4): Horizontal
  {
    if options.ra.Some? && options.dec.Some? then
      ConvertRADecToAzEl(trig, options.ra.value * Deg2Rad, options.dec.value * Deg2Rad, m)
    else
      Horizontal(OrElse(options.az, 0.0), OrElse(options.el, 0.0))
  }

  /** The lines of StarChart that pick the first direction. */
  method InitialView(trig: Trig, options: Options, m: Mat4) returns (h: Horizontal)
    ensures h == InitialDirection(trig, options, m)
  {
    var az, el := options.az, options.el;
    if options.ra.Some? && options.dec.Some? {
      var horDir := ConvertRADecToAzEl(trig, options.ra.value * Deg2Rad, options.dec.value * Deg2Rad, m);
      assert horDir == Horizontal(horDir.az, horDir.el);
      az, el := Some(horDir.az), Some(horDir.el);
    }
    h := Horizontal(OrElse(az, 0.0), OrElse(el, 0.0));
  }

  class StarChart {
    const trig: Trig
    /** Astronomical latitude and longitude in degrees. */
    const lat: real
    const lng: real
    /** Equatorial to horizontal, as computed when the chart is set up. */
    const matEquToHor: Mat4

    var screenWidth: real
    var screenHeight: real
    /** Vertical field of view in degrees. */
    var fovY: real
    var matProj: Mat4
    /** Viewing direction in degrees. */
    var viewAz: real
    var viewEl: real
    var matView: Mat4

    ghost var projectionUpdates: nat
    ghost var frames: nat

    /** The matrices agree with the numbers they are built from. */
    ghost predicate Valid()
      reads this`screenWidth, this`screenHeight, this`fovY, this`matProj, this`viewAz, this`viewEl, this`matView
    {
      0.0 < screenWidth && 0.0 < screenHeight
      && matProj == ProjectionMatrix(trig.cot, fovY, screenWidth, screenHeight)
      && matView == ViewMatrix(trig, viewAz, viewEl)
    }

    /** StarChart(stars, options): the place defaults to Tokyo Station, the
        field of view to 50°, the direction to (0°, 0°) unless ra and dec are
        both given, in which case it is their horizontal direction.  None of
        these is clamped.  The equatorial-to-horizontal matrix is the mulM4
        product at the clock reading nowMillis.  Setting up the canvas builds
        the projection once before the renderer exists and then draws one
        frame. */
    constructor (trig: Trig, options: Options, nowMillis: real, width: real, height: real)
      requires 0.0 < width && 0.0 < height
      ensures Valid()
      ensures this.trig == trig
      ensures lat == OrElse(options.lat, 35.681236) && lng == OrElse(options.lng, 139.767125)
      ensures matEquToHor == EquToHorMatrix(trig, lat, lng, nowMillis)
      ensures fovY == OrElse(options.fov, 50.0)
      ensures Horizontal(viewAz, viewEl) == InitialDirection(trig, options, matEquToHor)
      ensures screenWidth == width && screenHeight == height
      ensures projectionUpdates == 1 && frames == 1
    {
      this.trig := trig;
      var la := OrElse(options.lat, 35.681236);
      var lo := OrElse(options.lng, 139.767125);
      lat, lng := la, lo;
      fovY := OrElse(options.fov, 50.0);
      var m := UpdateEquToHorMatrix(trig, la, lo, nowMillis);
      var view := InitialView(trig, options, m);
      viewAz, viewEl := view.az, view.el;
      matEquToHor := m;
      screenWidth, screenHeight := width, height;
      matProj, matView := Identity(), Identity();
      projectionUpdates, frames := 0, 0;
      new;
      assert Horizontal(viewAz, viewEl) == view;
      UpdateProjectionMatrix();
      DrawFrame();
    }

    /** With ra and dec given and textbook trigonometry, the direction the
        constructor picks has elevation in [-90°, 90°] and azimuth in
        (-180°, 180°]. */
    lemma InitialElevationInRange(options: Options, nowMillis: real)
      requires Pythagorean(trig) && AsinInRange(trig) && Atan2InRange(trig)
      requires options.ra.Some? && options.dec.Some?
      requires Horizontal(viewAz, viewEl) == InitialDirection(trig, options, EquToHorMatrix(trig, lat, lng, nowMillis))
      ensures -90.0 <= viewEl <= 90.0 && -180.0 < viewAz <= 180.0
    {
      HorizontalInRange(trig, lat, lng, nowMillis, options.ra.value * Deg2Rad, options.dec.value * Deg2Rad);
    }

    method UpdateViewMatrix()
      modifies this`matView
      ensures matView == ViewMatrix(trig, viewAz, viewEl)
    {
      matView := MulM4(PitchRotation(trig, viewEl), TurnRotation(trig, viewAz));
      ViewMatrixIsProduct(trig, viewAz, viewEl);
    }

    /** Rebuilds the projection, then the view. */
    method UpdateProjectionMatrix()
      requires 0.0 < screenWidth && 0.0 < screenHeight
      modifies this`matProj, this`matView, this`projectionUpdates
      ensures Valid()
      ensures projectionUpdates == old(projectionUpdates) + 1
    {
      matProj := Perspective(trig.cot, fovY, screenWidth, screenHeight, 0.0125, 3.0);
      matProj := MulM4(matProj, Translate(0.0, 0.0, -1.0));
      ProjectionMatrixIsProduct(trig.cot, fovY, screenWidth, screenHeight);
      UpdateViewMatrix();
      projectionUpdates := projectionUpdates + 1;
    }

    /** renderer.drawFrame(matEquToHor, matView, matProj). */
    method DrawFrame()
      modifies this`frames
      ensures frames == old(frames) + 1
    {
      frames := frames + 1;
    }

    /** setFOV(fov): the field of view becomes clamp(fov, 30, 120).  When
        that is the current value nothing at all happens (no rebuild, no
        frame), so setting the same value again is a no-op. */
    method SetFOV(fov: real)
      requires Valid()
      modifies this
      ensures Valid()
      ensures fovY == Clamp(fov, 30.0, 120.0) && 30.0 <= fovY <= 120.0
      ensures viewAz == old(viewAz) && viewEl == old(viewEl)
      ensures screenWidth == old(screenWidth) && screenHeight == old(screenHeight)
      ensures Clamp(fov, 30.0, 120.0) == old(fovY) ==> unchanged(this)
      ensures Clamp(fov, 30.0, 120.0) != old(fovY) ==>
                projectionUpdates == old(projectionUpdates) + 1 && frames == old(frames) + 1
    {
      var f := Clamp(fov, 30.0, 120.0);
      if f != fovY {
        fovY := f;
        UpdateProjectionMatrix();
        DrawFrame();
      }
    }

    /** zoom(delta) = setFOV(fovY + delta). */
    method SetFOVDelta(delta: real)
      requires Valid()
      modifies this
      ensures Valid()
      ensures fovY == Clamp(old(fovY) + delta, 30.0, 120.0)
      ensures viewAz == old(viewAz) && viewEl == old(viewEl)
      ensures screenWidth == old(screenWidth) && screenHeight == old(screenHeight)
      ensures Clamp(old(fovY) + delta, 30.0, 120.0) == old(fovY) ==> unchanged(this)
      ensures Clamp(old(fovY) + delta, 30.0, 120.0) != old(fovY) ==>
                projectionUpdates == old(projectionUpdates) + 1 && frames == old(frames) + 1
    {
      SetFOV(fovY + delta);
    }

    /** setViewDir(az, el): the azimuth is stored as given, the elevation
        clamped to [-120, 120] (beyond 90° to look behind); the view is
        rebuilt and one frame drawn. */
    method SetViewDir(az: real, el: real)
      requires Valid()
      modifies this
      ensures Valid()
      ensures viewAz == az && viewEl == Clamp(el, -120.0, 120.0) && -120.0 <= viewEl <= 120.0
      ensures fovY == old(fovY) && matProj == old(matProj)
      ensures screenWidth == old(screenWidth) && screenHeight == old(screenHeight)
      ensures projectionUpdates == old(projectionUpdates) && frames == old(frames) + 1
    {
      viewAz := az;
      viewEl := Clamp(el, -120.0, 120.0);
      UpdateViewMatrix();
      DrawFrame();
    }

    /** onResizeWindow once the renderer exists: the new screen size, a
        rebuilt projection and one frame. */
    method Resize(width: real, height: real)
      requires 0.0 < width && 0.0 < height
      modifies this
      ensures Valid()
      ensures screenWidth == width && screenHeight == height
      ensures fovY == old(fovY) && viewAz == old(viewAz) && viewEl == old(viewEl)
      ensures projectionUpdates == old(projectionUpdates) + 1 && frames == old(frames) + 1
    {
      screenWidth, screenHeight := width, height;
      UpdateProjectionMatrix();
      DrawFrame();
    }
  }
}
