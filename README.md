# hoshizora.js in Dafny

hoshizora.js draws the night sky in a web page. A catalogue of stars is
turned into the horizontal frame of an observer at a given latitude and
longitude at the current sidereal time. Each star is drawn as a coloured
point whose colour comes from its B-V colour index and whose size comes from
its magnitude. The
camera (field of view, azimuth and elevation) is steered by touch, mouse
and wheel.

This project models the computing core of that script:

- `numeric.dfy`: `clamp` and JavaScript's truncated remainder `%`, in
  module `Numeric`.
- `m4.dfy`: the column-major 4x4 matrix kernel `M4`, in module `M4`. It
  covers identity, the three rotations (taking the cosine and sine of the
  angle), perspective, translate, scale, `mulM4` and `mulV4`.
- `celestial.dfy`: the equatorial direction of a star, the conversion to
  azimuth and elevation, and the Greenwich mean sidereal time with its
  normalisation to [0, 2π). It also holds the equatorial-to-horizontal
  matrix. Module `Celestial`.
- `appearance.dfy`: `bv2rgb`, `calculateAppearanceOfStar` and the
  `StarRenderer` loop that packs six floats per star into a buffer, in
  module `Appearance`.
- `chart.dfy`: the `StarChart` camera as a class, with its setters, in
  module `Chart`. Its fields are updated in place. Ghost counters record
  how often the projection is rebuilt and how often a frame is drawn.
- `controller.dfy`: `StarChartController` as a class, in module
  `Controller`. It holds the list of fingers `currentTouches`, the gesture
  snapshot `touchStartState`, the mouse press and the handlers that feed
  the camera.

The transcendental functions are parameters:
- `Math.sin`, `cos`, `asin`, `atan2` and `1 / Math.tan` travel in a `Trig`
  value;
- `Math.pow(10, ·)` is `exp10`;
- `Math.sqrt` is `sqrt`.

Properties that need textbook trigonometry take it as a precondition
(`Pythagorean`, `AsinInRange`, `Atan2InRange`). Numbers are reals.

The model follows the code where a reader might expect otherwise:
- The constructor stores `options.fov`, `options.az` and `options.el`
  unclamped. Only the setters clamp.
- `rotY` maps +z toward +x: its first column is (cos, 0, -sin).
- `splice(index)` is called with one argument (hoshizora.js:744). Lifting a
  finger therefore drops it and every finger recorded after it.
- `onTouchMove` does not retake the snapshot. After a move the snapshot
  still holds the fingers' starting positions, with the same identifiers in
  the same order as `currentTouches`.
- The dim-star floor gives 10^-2.8 · 0.75 + 0.125 at magnitude 10, since
  the intensity 10^-2.8 is below 0.5.

The matrices kept by the chart are stated in closed form: `ViewMatrix`,
`ProjectionMatrix` and `EquToHorMatrix`. Each has a lemma (`…IsProduct`)
proving that the closed form equals the `mulM4` product the source computes.
The methods compute that product and then call the lemma.

## Model

| member | source | states |
|---|---|---|
| Numeric.Clamp | hoshizora.js:6-8 | the result lies in [lower, upper], is x when x is inside, and is otherwise one of the bounds |
| Numeric.ClampIdempotent | hoshizora.js:6-8 | clamping a clamped value changes nothing |
| Numeric.ClampMonotone | hoshizora.js:6-8 | clamping keeps the order of two values |
| Numeric.JsRem | hoshizora.js:149 | `a % b` has the sign of a, magnitude below b, and differs from a by a whole multiple of b |
| M4.Identity | hoshizora.js:18-23 | the 4x4 identity, column-major; IdentityIsNeutral and IdentityFixesVectors state what it does |
| M4.RotZ | hoshizora.js:24-29 | the rotation about z from the cosine and sine of the angle; RotZAxes, RotZCompose and RotZInverse state its behaviour |
| M4.RotY | hoshizora.js:30-35 | the rotation about y with first column (c, 0, -s); RotYAxes, RotYCompose and RotYInverse state its behaviour |
| M4.RotX | hoshizora.js:36-41 | the rotation about x; RotXAxes, RotXCompose and RotXInverse state its behaviour |
| M4.Perspective | hoshizora.js:42-54 | the perspective matrix with h = cot(fov/2) and w = h · height / width; PerspectiveDepthRange states what it does to the near and far planes |
| M4.Translate | hoshizora.js:55-61 | the translation with (dx, dy, dz) in the last column; TranslateMovesPoint and TranslateKeepsDirection state its behaviour |
| M4.Scale | hoshizora.js:62-70 | the scaling with undefined sy, sz replaced by sx; ScaleDefaults and ScaleStretchesPoint state its behaviour |
| M4.MulM4 | hoshizora.js:71-91 | the sixteen sums of mulM4 written out; MulM4IsRowByColumn proves it is the row-by-column product |
| M4.MulV4 | hoshizora.js:92-98 | the four sums of mulV4 written out; MulV4IsRowByVector and MulV4OfProduct state its behaviour |
| M4.PitchTurn | hoshizora.js:166 | rotX · rotY multiplied out in closed form; RotXTimesRotY proves it equals the mulM4 product |
| M4.RotZAxes | hoshizora.js:24-29 | rotZ sends x to (c, s, 0), y to (-s, c, 0) and keeps z |
| M4.RotYAxes | hoshizora.js:30-35 | rotY sends x to (c, 0, -s), z to (s, 0, c) and keeps y |
| M4.RotXAxes | hoshizora.js:36-41 | rotX keeps x, sends y to (0, c, s) and z to (0, -s, c) |
| M4.RotXCompose | hoshizora.js:36-41 | two rotX compose into one rotX of the summed angle (cosine and sine of the sum) |
| M4.RotYCompose | hoshizora.js:30-35 | two rotY compose into one rotY of the summed angle |
| M4.RotZCompose | hoshizora.js:24-29 | two rotZ compose into one rotZ of the summed angle |
| M4.RotXInverse | hoshizora.js:36-41 | on the unit circle rotX of -t times rotX of t is the identity |
| M4.RotYInverse | hoshizora.js:30-35 | on the unit circle rotY of -t times rotY of t is the identity |
| M4.RotZInverse | hoshizora.js:24-29 | on the unit circle rotZ of -t times rotZ of t is the identity |
| M4.MulM4IsRowByColumn | hoshizora.js:71-91 | entry (i, j) of mulM4(l, r) is the sum over k of l(i, k)·r(k, j), column-major |
| M4.MulV4IsRowByVector | hoshizora.js:92-98 | entry i of mulV4(m, v) is the sum over k of m(i, k)·v[k] |
| M4.IdentityIsNeutral | hoshizora.js:18-23 | the identity is neutral on both sides of mulM4 |
| M4.IdentityFixesVectors | hoshizora.js:18-23 | mulV4 by the identity returns the vector |
| M4.MulV4OfProduct | hoshizora.js:71-98 | transforming by l·r is transforming by r and then by l |
| M4.RotXTimesRotY | hoshizora.js:166 | rotX·rotY multiplied out is the closed turn-then-pitch matrix |
| M4.PitchTurnApplies | hoshizora.js:166 | that matrix applied to v is rotY then rotX applied to v |
| M4.TranslateMovesPoint | hoshizora.js:55-61 | translate moves a point (w = 1) by (dx, dy, dz) |
| M4.TranslateKeepsDirection | hoshizora.js:55-61 | translate leaves a direction (w = 0) unchanged |
| M4.ScaleDefaults | hoshizora.js:62-70 | with sy and sz undefined, scale(s) is scale(s, s, s) |
| M4.ScaleStretchesPoint | hoshizora.js:62-70 | scale multiplies each coordinate by its own factor and keeps w |
| M4.PerspectiveDepthRange | hoshizora.js:42-54 | perspective sends the near plane to depth -w and the far plane to +w, and scales x, y by the cotangent of half the field of view (x also by the aspect ratio) |
| Celestial.DirRADec | hoshizora.js:102-109 | the y component is sin(dec), w is 1, and when sin² + cos² = 1 at ra and at dec the direction has length 1 |
| Celestial.ConvertRADecToAzEl | hoshizora.js:119-135 | its first clause is the definition (elevation in radians is asin of the horizontal y, azimuth atan2(-x, z)); the elevation lies in [-90°, 90°] when that asin lies in [-π/2, π/2], and the azimuth in (-180°, 180°] when atan2 keeps to (-π, π] |
| Celestial.ElevationInRange | hoshizora.js:119-135 | when asin maps [-1, 1] into [-π/2, π/2] and the horizontal y lies in [-1, 1], the elevation lies in [-90°, 90°] |
| Celestial.NormalizeAngle | hoshizora.js:149-150 | the normalised angle lies in [0, 2π) and differs from the input by whole turns |
| Celestial.NormalizeIsFlooredModulo | hoshizora.js:149-150 | the truncated remainder shifted up when negative equals g - 2π·floor(g / 2π) |
| Celestial.NormalizeKeepsRange | hoshizora.js:149-150 | an angle already in [0, 2π) is returned unchanged |
| Celestial.SiderealAngle | hoshizora.js:138-148 | the un-normalised sidereal angle: the sidereal polynomial in Julian centuries plus the seconds of the day, in radians; Gmst and GmstAtJ2000 state the normalised result |
| Celestial.Gmst | hoshizora.js:138-151 | the sidereal time lies in [0, 2π) and is the sidereal polynomial up to whole turns |
| Celestial.GmstAtJ2000 | hoshizora.js:138-151 | at J2000.0 the sidereal time is the constant term taken into [0, 2π), about 4.89496 rad |
| Celestial.EquToHorMatrix | hoshizora.js:163-167 | the equatorial-to-horizontal matrix in closed form; EquToHorMatrixIsProduct, PoleIgnoresTime and EquToHorKeepsLength state its behaviour |
| Celestial.EquToHorMatrixIsProduct | hoshizora.js:163-167 | the closed equatorial-to-horizontal matrix is mulM4(rotX((lat-90)°), rotY(-st)) |
| Celestial.PoleIgnoresTime | hoshizora.js:163-167 | the celestial pole lands at (0, cos tilt, sin tilt) whatever the time and longitude |
| Celestial.RotXKeepsLength | hoshizora.js:36-41 | on the unit circle rotX keeps the length of x, y, z and keeps w |
| Celestial.RotYKeepsLength | hoshizora.js:30-35 | on the unit circle rotY keeps the length of x, y, z and keeps w |
| Celestial.EquToHorKeepsLength | hoshizora.js:163-167 | with sin² + cos² = 1 the equatorial-to-horizontal matrix keeps lengths |
| Celestial.HorizontalInRange | hoshizora.js:119-135 | for any star the elevation lies in [-90°, 90°] and the azimuth in (-180°, 180°] |
| Appearance.Unpack | hoshizora.js:634 | each channel of 0xRRGGBB lies in [0, 255] |
| Appearance.UnpackedBytesRebuildColor | hoshizora.js:634 | the three extracted bytes reassemble the 24-bit colour |
| Appearance.Interpolate | hoshizora.js:635 | x at a = 0, y at a = 1, between x and y for a in [0, 1] |
| Appearance.Bv2Rgb | hoshizora.js:626-653 | below -0.40 the first colour, from 2.00 on the last, in between a colour between the two neighbouring table entries (Bv2RgbBetweenEntries gives its exact interpolated value); channels in [0, 255] |
| Appearance.Mix | hoshizora.js:640-648 | for a fraction in [0, 1] every channel lies between those of the two colours, and stays in [0, 255] when theirs do |
| Appearance.Bv2RgbBetweenEntries | hoshizora.js:640-648 | a fraction t ∈ [0, 1) of the way from table entry k to k + 1, the colour is each channel of entry k interpolated towards entry k + 1 by t |
| Appearance.Bv2RgbAtTableEntry | hoshizora.js:626-653 | at B-V = -0.40 + 0.05·k the colour is table entry k exactly |
| Appearance.RawIntensity | hoshizora.js:660 | the intensity 1 / 10^((mag-3)/2.5) is clamped into [0, 10] |
| Appearance.DimFloor | hoshizora.js:663-665 | the floor never lowers an intensity, lifts every non-negative one to at least 0.125, keeps it below 0.5 exactly when it was, and leaves intensities from 0.5 on alone |
| Appearance.DimFloorMonotone | hoshizora.js:663-665 | the floor keeps the order of intensities |
| Appearance.CalculateAppearanceOfStar | hoshizora.js:655-685 | red, green and blue lie in [0, 1] and the radius in [1, 6] |
| Appearance.Shade | hoshizora.js:668-683 | for a table colour the channels lie in [0, 1] and the radius in [1, 6] |
| Appearance.BrightStarHasFullColor | hoshizora.js:668-673 | from intensity 1 on a star has its full table colour |
| Appearance.DimStarHasMinimumRadius | hoshizora.js:668-677 | below intensity 1 the colour is scaled by the intensity and the radius is the minimum 1 |
| Appearance.MagnitudeThree | hoshizora.js:655-685 | a magnitude-3 star has intensity 1, its full table colour and radius 1 |
| Appearance.Vertex | hoshizora.js:314-326 | the six floats of star i are its ra, dec, three colours in [0, 1] and a point size in [3, 13] |
| Appearance.Vertices | hoshizora.js:300-313 | one vertex for each whole group of four catalogue numbers, in order |
| Appearance.FlattenSlot | hoshizora.js:320-325 | float k of vertex i sits at index 6i + k of the packed buffer |
| Appearance.BufferSlot | hoshizora.js:320-325 | in the packed star buffer, float k of star i is float k of its vertex |
| Appearance.StoreVertex | hoshizora.js:320-325 | the six floats land at 6i … 6i + 5 in order, and every other float of the buffer is untouched |
| Appearance.PackStar | hoshizora.js:313-326 | after one pass the buffer's first 6(i + 1) floats are the earlier ones followed by the vertex of star i |
| Appearance.PackStars | hoshizora.js:298-326 | the buffer the loop fills is exactly the stars' vertices laid end to end |
| Chart.ProjectionMatrix | hoshizora.js:179-186 | the projection matrix in closed form; ProjectionMatrixIsProduct and ProjectionIsShiftedPerspective state its behaviour |
| Chart.ProjectionMatrixIsProduct | hoshizora.js:179-186 | the closed projection matrix is mulM4(perspective(fovY, w, h, 0.0125, 3), translate(0, 0, -1)) |
| Chart.ProjectionIsShiftedPerspective | hoshizora.js:179-186 | the projection of a point is the perspective of that point moved back by one |
| Chart.ViewMatrix | hoshizora.js:209-211 | the view matrix in closed form; ViewMatrixIsProduct and ViewZenithIgnoresAzimuth state its behaviour |
| Chart.ViewMatrixIsProduct | hoshizora.js:209-211 | the closed view matrix is mulM4(rotX(-el°), rotY((180+az)°)) |
| Chart.ViewZenithIgnoresAzimuth | hoshizora.js:209-211 | the zenith is placed by the elevation alone, so turning in azimuth never rolls the view |
| Chart.UpdateEquToHorMatrix | hoshizora.js:163-167 | the mulM4 product it computes at the given clock reading is the closed equatorial-to-horizontal matrix |
| Chart.InitialView | hoshizora.js:201-207 | the first view direction is that of ra and dec through the given matrix when both are numbers, otherwise az and el defaulting to 0 |
| Chart.StarChart.constructor | hoshizora.js:157-260 | defaults (Tokyo Station, 50°), unclamped options, the equatorial-to-horizontal product at the clock reading, the first direction as InitialView gives it from that matrix, one projection build and one frame |
| Chart.StarChart.InitialElevationInRange | hoshizora.js:201-207 | with textbook trigonometry a direction taken from ra and dec has elevation in [-90°, 90°] and azimuth in (-180°, 180°] |
| Chart.StarChart.UpdateViewMatrix | hoshizora.js:209-211 | the view matrix becomes that of the current azimuth and elevation |
| Chart.StarChart.UpdateProjectionMatrix | hoshizora.js:179-186 | the projection and the view are rebuilt from the current numbers; one more rebuild |
| Chart.StarChart.DrawFrame | hoshizora.js:248-253 | one more frame is drawn and nothing else changes |
| Chart.StarChart.SetFOV | hoshizora.js:187-195 | the field of view becomes clamp(fov, 30, 120); if that is the current value nothing changes, otherwise one rebuild and one frame |
| Chart.StarChart.SetFOVDelta | hoshizora.js:196-199 | the field of view becomes clamp(fovY + delta, 30, 120), no-op as for setFOV |
| Chart.StarChart.SetViewDir | hoshizora.js:212-217 | the azimuth is stored as given, the elevation clamped to [-120, 120]; field of view and projection untouched; one frame |
| Chart.StarChart.Resize | hoshizora.js:228-235 | the new screen size, a projection consistent with it, view unchanged, one rebuild and one frame |
| Controller.FindTouchById | hoshizora.js:698-700 | the first index whose id matches, or -1 exactly when no finger has the id |
| Controller.Centroid | hoshizora.js:701-709 | the fingers' mean position, absent exactly when there are no fingers |
| Controller.AverageXY | hoshizora.js:701-709 | the accumulated sums divided by the count are the fingers' centroid |
| Controller.SumXOfShifted | hoshizora.js:701-709 | moving every finger by dx adds n · dx to the sum of the x coordinates |
| Controller.SumYOfShifted | hoshizora.js:701-709 | moving every finger by dy adds n · dy to the sum of the y coordinates |
| Controller.CentroidOfShifted | hoshizora.js:701-709 | moving every finger by (dx, dy) moves the centroid by (dx, dy) |
| Controller.CentroidWithin | hoshizora.js:701-709 | the centroid lies between the leftmost and the rightmost finger |
| Controller.CentroidOfOne | hoshizora.js:701-709 | one finger is its own centroid |
| Controller.EndOne | hoshizora.js:741-746 | one lifted identifier cuts the list at its first finger; EndTouchesIsPrefix, EndedAreGone and EndFirstOfTwo state the loop's behaviour |
| Controller.EndTouches | hoshizora.js:741-746 | the lifted identifiers applied in order; the lemmas below state what the result is |
| Controller.EndTouchesIsPrefix | hoshizora.js:738-748 | lifting fingers only shortens the list from its end |
| Controller.EndedAreGone | hoshizora.js:738-748 | after touchend no finger carries a lifted identifier |
| Controller.EndUnknownIsNoop | hoshizora.js:738-748 | lifting identifiers the list does not hold changes nothing |
| Controller.EndKeepsBefore | hoshizora.js:741-746 | the fingers before every lifted one stay down, in their places |
| Controller.EndFirstOfTwo | hoshizora.js:744 | lifting the first of two fingers empties the list (splice with one argument) |
| Controller.MoveOne | hoshizora.js:756-763 | one moved touch replaces the record of its first finger and keeps the list's length |
| Controller.MoveTouches | hoshizora.js:755-764 | the moved touches applied in order, keeping the list's length |
| Controller.MoveKeepsIds | hoshizora.js:755-764 | touchmove keeps the number of fingers and their identifiers in order |
| Controller.MoveKeepsOthers | hoshizora.js:755-764 | a finger none of the moved touches names keeps its record |
| Controller.MoveTakesLast | hoshizora.js:755-764 | the finger named by the last moved touch takes that touch's coordinates |
| Controller.MoveTakesEach | hoshizora.js:755-764 | every moved finger takes the coordinates of its last move in the list |
| Controller.FindByIds | hoshizora.js:698-700 | the search depends on the identifiers only |
| Controller.DragAtStart | hoshizora.js:766-775 | at the snapshot the drag leaves the view where it was |
| Controller.DragByTranslation | hoshizora.js:766-775 | moving all fingers by (dx, dy) pixels turns the view by (-dx, +dy) times the angle per pixel |
| Controller.PanDoesNotZoom | hoshizora.js:777-787 | moving both fingers alike leaves the field of view at the snapshot's |
| Controller.SpreadingZoomsIn | hoshizora.js:777-787 | spreading the first two fingers apart narrows the field of view |
| Controller.MouseDragAtPress | hoshizora.js:804-812 | at the press point the mouse drag gives the view of the press |
| Controller.MouseDragMonotone | hoshizora.js:804-812 | dragging farther right lowers the azimuth and dragging farther down raises the elevation |
| Controller.StarChartController.constructor | hoshizora.js:691-697 | no fingers, no snapshot, no mouse press |
| Controller.StarChartController.RefreshTouchStartState | hoshizora.js:712-720 | the snapshot holds the camera, a copy of the fingers and their centroid |
| Controller.StarChartController.OnTouchStart | hoshizora.js:726-737 | the new fingers are appended in order, then the snapshot is retaken |
| Controller.StarChartController.PushTouches | hoshizora.js:729-735 | the list grows by the records of the changed touches |
| Controller.StarChartController.OnTouchEnd | hoshizora.js:738-748 | the list is cut at each lifted finger, then the snapshot is retaken |
| Controller.StarChartController.SpliceTouches | hoshizora.js:741-746 | the list is what the splice loop leaves of it |
| Controller.StarChartController.OnTouchCancel | hoshizora.js:749-751 | exactly onTouchEnd |
| Controller.StarChartController.OnTouchMove | hoshizora.js:752-788 | records replaced, snapshot kept; with a finger down the view follows the centroid's motion and one frame is drawn, otherwise the chart is untouched; with two, the field of view follows the spread, with one rebuild and one more frame exactly when the clamped value differs |
| Controller.StarChartController.ReplaceTouches | hoshizora.js:755-764 | the list is what the replacement loop makes of it |
| Controller.StarChartController.Drag | hoshizora.js:767-775 | the view becomes the snapshot's turned by the centroid's motion, clamped in elevation; projection kept, one frame |
| Controller.StarChartController.Zoom | hoshizora.js:777-787 | the field of view becomes clamp(snapshot fov - change of spread · angle per pixel, 30, 120); if that is the current value the chart is unchanged, otherwise one rebuild and one frame |
| Controller.StarChartController.OnMouseDown | hoshizora.js:796-799 | the press records the position and the current view |
| Controller.StarChartController.OnMouseUp | hoshizora.js:800-803 | the press is forgotten |
| Controller.StarChartController.OnMouseMove | hoshizora.js:804-812 | without a press nothing changes; with one the view is that of the press, turned by 2·fov/height per pixel of motion, with the projection kept and one frame; the screen size never changes |
| Controller.StarChartController.OnMouseWheel | hoshizora.js:813-816 | the field of view becomes clamp(fov + deltaY · 0.01, 30, 120); if that is the current value the chart is unchanged, otherwise one rebuild and one frame; view and screen size unchanged |

## Left out

- Rendering (WebGL and canvas 2D renderers, shaders, arcs, the grid and `Plotter`), `dirAzEl` and the page setup (`loadCatalogJS`, `loadCatalogBinary`, `parseQueryString`, `main`) are outside the computing core. A drawn frame is a ghost counter.
- `Date.now()` is the parameter `nowMillis` of the chart constructor.
- `Chart.StarChart.constructor`: reads the clock once, where the source reads it twice. The first reading (hoshizora.js:168) gives the matrix the ra/dec direction is converted with. The second (hoshizora.js:257) gives the matrix the chart keeps. The model uses one reading for both, so it does not capture the sidereal drift between the two.
- `Math.sin`, `cos`, `tan`, `asin`, `atan2`, `pow` and `sqrt` are parameters without concrete values. Properties that need their textbook behaviour take it as a precondition.
- Floating point, the `Float32Array` rounding of the star buffer, NaN and Infinity are not modelled; numbers are reals.
- Event listeners, `preventDefault` and the DOM event objects are left out; a handler takes the fields it reads (the changed touches, clientX/Y, deltaY).
- The chart's screen width and height are required to be positive; the browser's Infinity for a zero-size window is not modelled.
- `Appearance.Bv2Rgb`: the last branch returns `bv` itself for NaN; reals have no NaN, so that branch is unreachable in the model.
- `Controller.AverageXY`: for no fingers JavaScript returns NaN coordinates; the model returns None.
- `Controller.StarChartController.OnTouchMove`: when the snapshot is still undefined the source would throw on `touchStartState.touches`. The model's invariant shows that this happens only with no fingers, where the `&&` short-circuits first.
- The chart's matrices are stated in closed form with lemmas for the `mulM4` products; the methods compute those products.
