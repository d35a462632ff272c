/** The input handling of the star chart (StarChartController,
    hoshizora.js:691-817): the list of fingers on the screen, the snapshot
    taken when a gesture starts, and the drag, pinch, mouse and wheel
    gestures that turn and zoom the camera. */
module Controller {
  import opened Numeric
  import opened Celestial
  import opened Chart

  /** A finger as the DOM reports it in changedTouches. */
  datatype DomTouch = DomTouch(identifier: int, clientX: real, clientY: real)

  /** A finger as the controller records it in currentTouches. */
  datatype Touch = Touch(id: int, x: real, y: real)

  datatype Point = Point(x: real, y: real)

  /** touchStartState: the camera and the fingers when the gesture (re)started.
      `center` is None where averageXY divides by an empty length. */
  datatype TouchStartState = TouchStartState(fov: real, viewAz: real, viewEl: real,
                                             touches: seq<Touch>, center: Option<Point>)

  /** mouseDownState: where the button went down and the view at that time. */
  datatype MouseDownState = MouseDownState(x: real, y: real, viewAz: real, viewEl: real)

  /** The record pushed for a DOM touch. */
  function Record(t: DomTouch): Touch
  {
    Touch(t.identifier, t.clientX, t.clientY)
  }

  function Records(ts: seq<DomTouch>): (rs: seq<Touch>)
    ensures |rs| == |ts|
    ensures forall i :: 0 <= i < |ts| ==> rs[i] == Record(ts[i])
  {
    seq(|ts|, i requires 0 <= i < |ts| => Record(ts[i]))
  }

  function Ids(ts: seq<Touch>): (ids: seq<int>)
    ensures |ids| == |ts|
    ensures forall i :: 0 <= i < |ts| ==> ids[i] == ts[i].id
  {
    seq(|ts|, i requires 0 <= i < |ts| => ts[i].id)
  }

  // ---------------------------------------------------------------------
  // findCurrentTouchById and averageXY

  /** findIndex on the id: the first position holding `id`, or -1 when no
      finger has it. */
  function FindTouchById(touches: seq<Touch>, id: int): (index: int)
    ensures -1 <= index < |touches|
    ensures 0 <= index ==> touches[index].id == id
    ensures 0 <= index ==> forall j :: 0 <= j < index ==> touches[j].id != id
    ensures index == -1 <==> forall j :: 0 <= j < |touches| ==> touches[j].id != id
  {
    if |touches| == 0 then -1
    else if touches[0].id == id then 0
    else
      var k := FindTouchById(touches[1..], id);
      assert forall j :: 1 <= j < |touches| ==> touches[j] == touches[1..][j - 1];
      if k < 0 then -1 else k + 1
  }

  function SumX(ts: seq<Touch>): real
  {
    if |ts| == 0 then 0.0 else SumX(ts[..|ts| - 1]) + ts[|ts| - 1].x
  }

  function SumY(ts: seq<Touch>): real
  {
    if |ts| == 0 then 0.0 else SumY(ts[..|ts| - 1]) + ts[|ts| - 1].y
  }

  /** The mean position of the fingers; None for no finger. */
  function Centroid(ts: seq<Touch>): (c: Option<Point>)
    ensures c.None? <==> |ts| == 0
  {
    if |ts| == 0 then None
    else Some(Point(SumX(ts) / |ts| as real, SumY(ts) / |ts| as real))
  }

  /** averageXY: the coordinates summed in one pass, then divided by the
      number of fingers. */
  method AverageXY(touches: seq<Touch>) returns (center: Option<Point>)
    ensures center == Centroid(touches)
  {
    var x, y := 0.0, 0.0;
    for i := 0 to |touches|
      invariant x == SumX(touches[..i]) && y == SumY(touches[..i])
    {
      assert touches[..i + 1][..i] == touches[..i];
      x := x + touches[i].x;
      y := y + touches[i].y;
    }
    assert touches[..|touches|] == touches;
    if |touches| == 0 {
      center := None;
    } else {
      center := Some(Point(x / |touches| as real, y / |touches| as real));
    }
  }

  /** Every finger moved by (dx, dy). */
  function Shifted(ts: seq<Touch>, dx: real, dy: real): (rs: seq<Touch>)
    ensures |rs| == |ts|
    ensures forall i :: 0 <= i < |ts| ==> rs[i] == Touch(ts[i].id, ts[i].x + dx, ts[i].y + dy)
  {
    seq(|ts|, i requires 0 <= i < |ts| => Touch(ts[i].id, ts[i].x + dx, ts[i].y + dy))
  }

  lemma {:induction false} SumXOfShifted(ts: seq<Touch>, dx: real, dy: real)
    ensures SumX(Shifted(ts, dx, dy)) == SumX(ts) + |ts| as real * dx
  {
    if |ts| != 0 {
      var n := |ts| - 1;
      var s := Shifted(ts, dx, dy);
      SumXOfShifted(ts[..n], dx, dy);
      assert s[..n] == Shifted(ts[..n], dx, dy);
      assert s[n].x == ts[n].x + dx;
      OneMore(n, dx);
    }
  }

  lemma {:induction false} SumYOfShifted(ts: seq<Touch>, dx: real, dy: real)
    ensures SumY(Shifted(ts, dx, dy)) == SumY(ts) + |ts| as real * dy
  {
    if |ts| != 0 {
      var n := |ts| - 1;
      var s := Shifted(ts, dx, dy);
      SumYOfShifted(ts[..n], dx, dy);
      assert s[..n] == Shifted(ts[..n], dx, dy);
      assert s[n].y == ts[n].y + dy;
      OneMore(n, dy);
    }
  }

  lemma OneMore(n: nat, d: real)
    ensures (n + 1) as real * d == n as real * d + d
  {
  }

  /** Moving every finger by (dx, dy) moves their centre by (dx, dy). */
  lemma CentroidOfShifted(ts: seq<Touch>, dx: real, dy: real)
    requires |ts| != 0
    ensures Centroid(Shifted(ts, dx, dy))
            == Some(Point(Centroid(ts).value.x + dx, Centroid(ts).value.y + dy))
  {
    var n := |ts| as real;
    var s := Shifted(ts, dx, dy);
    assert Centroid(ts).value == Point(SumX(ts) / n, SumY(ts) / n);
    assert Centroid(s).value == Point(SumX(s) / n, SumY(s) / n);
    SumXOfShifted(ts, dx, dy);
    SumYOfShifted(ts, dx, dy);
    MeanShift(SumX(ts), n, dx, SumX(s));
    MeanShift(SumY(ts), n, dy, SumY(s));
  }

  lemma MeanShift(s: real, n: real, d: real, t: real)
    requires 0.0 < n && t == s + n * d
    ensures t / n == s / n + d
  {
    assert (s / n + d) * n == t;
  }

  lemma {:induction false} SumWithin(ts: seq<Touch>, lo: real, hi: real)
    requires forall i :: 0 <= i < |ts| ==> lo <= ts[i].x <= hi
    ensures |ts| as real * lo <= SumX(ts) <= |ts| as real * hi
  {
    if |ts| != 0 {
      var n := |ts| - 1;
      SumWithin(ts[..n], lo, hi);
      assert (n + 1) as real * lo == n as real * lo + lo;
      assert (n + 1) as real * hi == n as real * hi + hi;
    }
  }

  /** The centre of the fingers lies between the leftmost and the
      rightmost of them. */
  lemma CentroidWithin(ts: seq<Touch>, lo: real, hi: real)
    requires |ts| != 0
    requires forall i :: 0 <= i < |ts| ==> lo <= ts[i].x <= hi
    ensures lo <= Centroid(ts).value.x <= hi
  {
    SumWithin(ts, lo, hi);
    MeanBetween(SumX(ts), |ts| as real, lo, hi);
  }

  lemma MeanBetween(s: real, n: real, lo: real, hi: real)
    requires 0.0 < n && n * lo <= s <= n * hi
    ensures lo <= s / n <= hi
  {
    assert s / n * n == s;
  }

  /** One finger: it is its own centre. */
  lemma CentroidOfOne(t: Touch)
    ensures Centroid([t]) == Some(Point(t.x, t.y))
  {
    assert [t][..0] == [];
    assert SumX([t]) == t.x && SumY([t]) == t.y;
  }

  // ---------------------------------------------------------------------
  // The list updates of the touch handlers

  /** onTouchEnd for one identifier: splice(index) with a single argument
      cuts the list at the first finger with that id, dropping it and every
      finger after it; an unknown id changes nothing. */
  function EndOne(current: seq<Touch>, id: int): seq<Touch>
  {
    var index := FindTouchById(current, id);
    if index >= 0 then current[..index] else current
  }

  /** onTouchEnd's loop over changedTouches, in order. */
  function EndTouches(current: seq<Touch>, changed: seq<DomTouch>): seq<Touch>
  {
    if |changed| == 0 then current
    else EndOne(EndTouches(current, changed[..|changed| - 1]), changed[|changed| - 1].identifier)
  }

  /** onTouchMove for one DOM touch: the first finger with its id gets the
      new record; an unknown id changes nothing. */
  function MoveOne(current: seq<Touch>, t: DomTouch): (r: seq<Touch>)
    ensures |r| == |current|
  {
    var index := FindTouchById(current, t.identifier);
    if index >= 0 then current[index := Record(t)] else current
  }

  /** onTouchMove's loop over changedTouches, in order. */
  function MoveTouches(current: seq<Touch>, changed: seq<DomTouch>): (r: seq<Touch>)
    ensures |r| == |current|
  {
    if |changed| == 0 then current
    else MoveOne(MoveTouches(current, changed[..|changed| - 1]), changed[|changed| - 1])
  }

  /** Lifting fingers only ever shortens the list from the end. */
  lemma {:induction false} EndTouchesIsPrefix(current: seq<Touch>, changed: seq<DomTouch>)
    ensures var r := EndTouches(current, changed); |r| <= |current| && r == current[..|r|]
  {
    if |changed| != 0 {
      EndTouchesIsPrefix(current, changed[..|changed| - 1]);
    }
  }

  /** After onTouchEnd no finger carries an identifier that was lifted. */
  lemma {:induction false} EndedAreGone(current: seq<Touch>, changed: seq<DomTouch>)
    ensures forall j :: 0 <= j < |changed| ==>
              FindTouchById(EndTouches(current, changed), changed[j].identifier) == -1
  {
    if |changed| != 0 {
      var n := |changed| - 1;
      var before := EndTouches(current, changed[..n]);
      var r := EndOne(before, changed[n].identifier);
      EndedAreGone(current, changed[..n]);
      assert r == before[..|r|];
      forall j | 0 <= j < |changed|
        ensures FindTouchById(r, changed[j].identifier) == -1
      {
        if j < n {
          assert changed[..n][j] == changed[j];
          assert FindTouchById(before, changed[j].identifier) == -1;
        }
      }
    }
  }

  /** Lifting fingers the list does not hold leaves it as it is. */
  lemma {:induction false} EndUnknownIsNoop(current: seq<Touch>, changed: seq<DomTouch>)
    requires forall j :: 0 <= j < |changed| ==> FindTouchById(current, changed[j].identifier) == -1
    ensures EndTouches(current, changed) == current
  {
    if |changed| != 0 {
      var n := |changed| - 1;
      assert forall j :: 0 <= j < n ==> changed[..n][j] == changed[j];
      EndUnknownIsNoop(current, changed[..n]);
    }
  }

  /** The fingers before the first lifted one stay down, in their places. */
  lemma {:induction false} EndKeepsBefore(current: seq<Touch>, changed: seq<DomTouch>, k: nat)
    requires k <= |current|
    requires forall j, i :: 0 <= j < |changed| && 0 <= i < k ==> changed[j].identifier != current[i].id
    ensures var r := EndTouches(current, changed); k <= |r| && r[..k] == current[..k]
  {
    if |changed| != 0 {
      var n := |changed| - 1;
      var before := EndTouches(current, changed[..n]);
      assert forall j :: 0 <= j < n ==> changed[..n][j] == changed[j];
      EndKeepsBefore(current, changed[..n], k);
      assert forall i :: 0 <= i < k ==> before[i] == current[..k][i] == current[i];
    }
  }

  /** As written, lifting the first of two fingers forgets both. */
  lemma EndFirstOfTwo(a: Touch, b: Touch)
    ensures EndTouches([a, b], [DomTouch(a.id, a.x, a.y)]) == []
  {
    assert [DomTouch(a.id, a.x, a.y)][..0] == [];
  }

  /** Moving fingers keeps the number of fingers and their identifiers. */
  lemma {:induction false} MoveKeepsIds(current: seq<Touch>, changed: seq<DomTouch>)
    ensures Ids(MoveTouches(current, changed)) == Ids(current)
  {
    if |changed| != 0 {
      MoveKeepsIds(current, changed[..|changed| - 1]);
    }
  }

  /** A finger whose identifier none of the moved touches carries keeps its
      record, and the moved ones keep their place. */
  lemma {:induction false} MoveKeepsOthers(current: seq<Touch>, changed: seq<DomTouch>, i: nat)
    requires i < |current|
    requires forall j :: 0 <= j < |changed| ==> changed[j].identifier != current[i].id
    ensures MoveTouches(current, changed)[i] == current[i]
  {
    if |changed| != 0 {
      var n := |changed| - 1;
      assert forall j :: 0 <= j < n ==> changed[..n][j] == changed[j];
      MoveKeepsOthers(current, changed[..n], i);
    }
  }

  /** The finger that moved last takes the coordinates of that move. */
  lemma MoveTakesLast(current: seq<Touch>, changed: seq<DomTouch>)
    requires |changed| != 0
    requires FindTouchById(current, changed[|changed| - 1].identifier) >= 0
    ensures var t := changed[|changed| - 1];
            var k := FindTouchById(current, t.identifier);
            MoveTouches(current, changed)[k] == Touch(t.identifier, t.clientX, t.clientY)
  {
    var n := |changed| - 1;
    var t := changed[n];
    var before := MoveTouches(current, changed[..n]);
    MoveKeepsIds(current, changed[..n]);
    FindByIds(before, current, t.identifier);
  }

  /** Every moved finger takes the coordinates of its last move, not only
      the finger moved last: the records of a pinch are both updated. */
  lemma {:induction false} MoveTakesEach(current: seq<Touch>, changed: seq<DomTouch>, j: nat)
    requires j < |changed|
    requires FindTouchById(current, changed[j].identifier) >= 0
    requires forall l :: j < l < |changed| ==> changed[l].identifier != changed[j].identifier
    ensures MoveTouches(current, changed)[FindTouchById(current, changed[j].identifier)] == Record(changed[j])
  {
    var n := |changed| - 1;
    var k := FindTouchById(current, changed[j].identifier);
    if j == n {
      MoveTakesLast(current, changed);
    } else {
      var front := changed[..n];
      assert front[j] == changed[j];
      assert forall l :: j < l < n ==> front[l] == changed[l];
      MoveTakesEach(current, front, j);
      var before := MoveTouches(current, front);
      assert before[k] == Record(changed[j]);
      var index := FindTouchById(before, changed[n].identifier);
      assert index >= 0 ==> before[index].id == changed[n].identifier;
      assert index != k;
    }
  }

  /** The search looks at identifiers only. */
  lemma {:induction false} FindByIds(a: seq<Touch>, b: seq<Touch>, id: int)
    requires Ids(a) == Ids(b)
    ensures FindTouchById(a, id) == FindTouchById(b, id)
  {
    if |a| != 0 {
      assert a[0].id == Ids(a)[0] == b[0].id;
      assert Ids(a[1..]) == Ids(a)[1..] == Ids(b)[1..] == Ids(b[1..]);
      FindByIds(a[1..], b[1..], id);
    }
  }

  // ---------------------------------------------------------------------
  // Gestures

  /** Math.sqrt(dx*dx + dy*dy) with sqrt a parameter. */
  function Hypot(sqrt: real -> real, dx: real, dy: real): real
  {
    sqrt(dx * dx + dy * dy)
  }

  /** The distance between the first two fingers. */
  function Spread(sqrt: real -> real, ts: seq<Touch>): real
    requires 2 <= |ts|
  {
    Hypot(sqrt, ts[0].x - ts[1].x, ts[0].y - ts[1].y)
  }

  /** The one-finger (or more) drag of onTouchMove: the view turns by the
      motion of the fingers' centre, anglePerPixel degrees per pixel, with
      the azimuth against the motion and the elevation with it. */
  function DragTarget(start: TouchStartState, current: seq<Touch>, anglePerPixel: real): Horizontal
    requires start.center.Some? && 1 <= |current|
  {
    DragBy(start, Centroid(current).value, anglePerPixel)
  }

  /** The view for the fingers' centre at currCenter. */
  function DragBy(start: TouchStartState, currCenter: Point, anglePerPixel: real): Horizontal
    requires start.center.Some?
  {
    var dx := (currCenter.x - start.center.value.x) * anglePerPixel;
    var dy := (currCenter.y - start.center.value.y) * anglePerPixel;
    Horizontal(start.viewAz - dx, start.viewEl + dy)
  }

  /** The two-finger pinch of onTouchMove: spreading the first two fingers
      narrows the field of view by anglePerPixel degrees per pixel. */
  function PinchTarget(sqrt: real -> real, start: TouchStartState, current: seq<Touch>,
                       anglePerPixel: real): real
    requires 2 <= |start.touches| && 2 <= |current|
  {
    PinchBy(start.fov, Spread(sqrt, start.touches), Spread(sqrt, current), anglePerPixel)
  }

  /** The field of view for the two distances. */
  function PinchBy(fov: real, startDistance: real, currDistance: real, anglePerPixel: real): real
  {
    fov - (currDistance - startDistance) * anglePerPixel
  }

  /** Right after the snapshot the view has not jumped. */
  lemma DragAtStart(start: TouchStartState, anglePerPixel: real)
    requires 1 <= |start.touches| && start.center == Centroid(start.touches)
    ensures DragTarget(start, start.touches, anglePerPixel) == Horizontal(start.viewAz, start.viewEl)
  {
  }

  /** Moving every finger by (dx, dy) pixels turns the view by exactly that
      many pixels' worth of angle. */
  lemma DragByTranslation(start: TouchStartState, dx: real, dy: real, anglePerPixel: real)
    requires 1 <= |start.touches| && start.center == Centroid(start.touches)
    ensures DragTarget(start, Shifted(start.touches, dx, dy), anglePerPixel)
            == Horizontal(start.viewAz - dx * anglePerPixel, start.viewEl + dy * anglePerPixel)
  {
    CentroidOfShifted(start.touches, dx, dy);
    var c := Centroid(start.touches).value;
    assert (c.x + dx - c.x) * anglePerPixel == dx * anglePerPixel;
    assert (c.y + dy - c.y) * anglePerPixel == dy * anglePerPixel;
  }

  /** A two-finger pan, both fingers moved alike, does not zoom. */
  lemma PanDoesNotZoom(sqrt: real -> real, start: TouchStartState, dx: real, dy: real, anglePerPixel: real)
    requires 2 <= |start.touches|
    ensures PinchTarget(sqrt, start, Shifted(start.touches, dx, dy), anglePerPixel) == start.fov
  {
    var s := Shifted(start.touches, dx, dy);
    assert s[0].x - s[1].x == start.touches[0].x - start.touches[1].x;
    assert s[0].y - s[1].y == start.touches[0].y - start.touches[1].y;
  }

  /** Spreading the fingers apart zooms in: the field of view gets
      narrower than at the snapshot. */
  lemma SpreadingZoomsIn(sqrt: real -> real, start: TouchStartState, current: seq<Touch>,
                         anglePerPixel: real)
    requires 2 <= |start.touches| && 2 <= |current| && 0.0 < anglePerPixel
    requires Spread(sqrt, start.touches) < Spread(sqrt, current)
    ensures PinchTarget(sqrt, start, current, anglePerPixel) < start.fov
  {
    PositiveProduct(Spread(sqrt, current) - Spread(sqrt, start.touches), anglePerPixel);
  }

  lemma PositiveProduct(a: real, b: real)
    requires 0.0 < a && 0.0 < b
    ensures 0.0 < a * b
  {
  }

  /** The mouse drag of onMouseMove, relative to where the button went down. */
  function MouseDragTarget(press: MouseDownState, clientX: real, clientY: real, anglePerPixel: real): Horizontal
  {
    Horizontal(press.viewAz - (clientX - press.x) * anglePerPixel,
               press.viewEl + (clientY - press.y) * anglePerPixel)
  }

  /** At the point of the press the view is the one of the press. */
  lemma MouseDragAtPress(press: MouseDownState, anglePerPixel: real)
    ensures MouseDragTarget(press, press.x, press.y, anglePerPixel) == Horizontal(press.viewAz, press.viewEl)
  {
  }

  /** Farther to the right means a smaller azimuth, farther down a larger
      elevation. */
  lemma MouseDragMonotone(press: MouseDownState, x1: real, y1: real, x2: real, y2: real,
                          anglePerPixel: real)
    requires 0.0 < anglePerPixel && x1 < x2 && y1 < y2
    ensures MouseDragTarget(press, x2, y2, anglePerPixel).az < MouseDragTarget(press, x1, y1, anglePerPixel).az
    ensures MouseDragTarget(press, x1, y1, anglePerPixel).el < MouseDragTarget(press, x2, y2, anglePerPixel).el
  {
    var a1, a2 := (x1 - press.x) * anglePerPixel, (x2 - press.x) * anglePerPixel;
    var b1, b2 := (y1 - press.y) * anglePerPixel, (y2 - press.y) * anglePerPixel;
    ScaleKeepsOrder(x1 - press.x, x2 - press.x, anglePerPixel, a1, a2);
    ScaleKeepsOrder(y1 - press.y, y2 - press.y, anglePerPixel, b1, b2);
    assert MouseDragTarget(press, x1, y1, anglePerPixel) == Horizontal(press.viewAz - a1, press.viewEl + b1);
    assert MouseDragTarget(press, x2, y2, anglePerPixel) == Horizontal(press.viewAz - a2, press.viewEl + b2);
  }

  lemma ScaleKeepsOrder(a: real, b: real, k: real, pa: real, pb: real)
    requires a < b && 0.0 < k && pa == a * k && pb == b * k
    ensures pa < pb
  {
    PositiveProduct(b - a, k);
  }

  /** The touch drag is under way: a finger is down and the snapshot has one. */
  predicate Dragging(current: seq<Touch>, start: Option<TouchStartState>)
  {
    1 <= |current| && start.Some? && 1 <= |start.value.touches|
  }

  /** The pinch is under way: two fingers now and in the snapshot. */
  predicate Pinching(current: seq<Touch>, start: Option<TouchStartState>)
  {
    2 <= |current| && start.Some? && 2 <= |start.value.touches|
  }

  /** A pinch whose clamped field of view differs from the current one: only
      then does setFOV rebuild the projection and draw a frame. */
  predicate ZoomChanges(sqrt: real -> real, current: seq<Touch>, start: Option<TouchStartState>,
                        anglePerPixel: real, fovY: real)
  {
    Pinching(current, start)
    && Clamp(PinchTarget(sqrt, start.value, current, anglePerPixel), 30.0, 120.0) != fovY
  }

  // ---------------------------------------------------------------------

  class StarChartController {
    const chart: StarChart
    /** Math.sqrt. */
    const sqrt: real -> real

    var currentTouches: seq<Touch>
    var touchStartState: Option<TouchStartState>
    var mouseDownState: Option<MouseDownState>

    /** The camera is consistent; until the first touch there is neither a
        finger nor a snapshot; the snapshot holds the same fingers, in the
        same order, as the list, and its centre is theirs. */
    ghost predicate Valid()
      reads this, chart
    {
      chart.Valid()
      && (touchStartState.None? ==> currentTouches == [])
      && (touchStartState.Some? ==>
            Ids(touchStartState.value.touches) == Ids(currentTouches)
            && touchStartState.value.center == Centroid(touchStartState.value.touches))
    }

    constructor (chart: StarChart, sqrt: real -> real)
      requires chart.Valid()
      ensures Valid()
      ensures this.chart == chart && this.sqrt == sqrt
      ensures currentTouches == [] && touchStartState.None? && mouseDownState.None?
    {
      this.chart := chart;
      this.sqrt := sqrt;
      currentTouches := [];
      touchStartState := None;
      mouseDownState := None;
    }

    /** refreshTouchStartState: the camera now, a copy of the fingers and
        their centre. */
    method RefreshTouchStartState()
      requires chart.Valid()
      modifies this`touchStartState
      ensures Valid()
      ensures touchStartState == Some(TouchStartState(chart.fovY, chart.viewAz, chart.viewEl,
                                                      currentTouches, Centroid(currentTouches)))
    {
      var center := AverageXY(currentTouches);
      touchStartState := Some(TouchStartState(chart.fovY, chart.viewAz, chart.viewEl,
                                              currentTouches, center));
    }

    /** onTouchStart: the new fingers are appended in order, then the
        snapshot is retaken. */
    method OnTouchStart(changed: seq<DomTouch>)
      requires Valid()
      modifies this`currentTouches, this`touchStartState
      ensures Valid()
      ensures currentTouches == old(currentTouches) + Records(changed)
      ensures touchStartState == Some(TouchStartState(chart.fovY, chart.viewAz, chart.viewEl,
                                                      currentTouches, Centroid(currentTouches)))
    {
      PushTouches(changed);
      RefreshTouchStartState();
    }

    /** The loop of onTouchStart: push a record for each new finger. */
    method PushTouches(changed: seq<DomTouch>)
      modifies this`currentTouches
      ensures currentTouches == old(currentTouches) + Records(changed)
    {
      for ti := 0 to |changed|
        invariant currentTouches == old(currentTouches) + Records(changed[..ti])
      {
        assert Records(changed[..ti + 1]) == Records(changed[..ti]) + [Record(changed[ti])];
        currentTouches := currentTouches + [Touch(changed[ti].identifier, changed[ti].clientX,
                                                  changed[ti].clientY)];
      }
      assert changed[..|changed|] == changed;
    }

    /** onTouchEnd: each lifted identifier cuts the list at its finger;
        the snapshot is retaken (also when no finger is left). */
    method OnTouchEnd(changed: seq<DomTouch>)
      requires Valid()
      modifies this`currentTouches, this`touchStartState
      ensures Valid()
      ensures currentTouches == EndTouches(old(currentTouches), changed)
      ensures touchStartState == Some(TouchStartState(chart.fovY, chart.viewAz, chart.viewEl,
                                                      currentTouches, Centroid(currentTouches)))
    {
      SpliceTouches(changed);
      RefreshTouchStartState();
    }

    /** The loop of onTouchEnd: splice(index) at each lifted finger found. */
    method SpliceTouches(changed: seq<DomTouch>)
      modifies this`currentTouches
      ensures currentTouches == EndTouches(old(currentTouches), changed)
    {
      for ti := 0 to |changed|
        invariant currentTouches == EndTouches(old(currentTouches), changed[..ti])
      {
        assert changed[..ti + 1][..ti] == changed[..ti];
        var index := FindTouchById(currentTouches, changed[ti].identifier);
        if index >= 0 {
          currentTouches := currentTouches[..index];
        }
      }
      assert changed[..|changed|] == changed;
    }

    /** onTouchCancel is onTouchEnd. */
    method OnTouchCancel(changed: seq<DomTouch>)
      requires Valid()
      modifies this`currentTouches, this`touchStartState
      ensures Valid()
      ensures currentTouches == EndTouches(old(currentTouches), changed)
      ensures touchStartState == Some(TouchStartState(chart.fovY, chart.viewAz, chart.viewEl,
                                                      currentTouches, Centroid(currentTouches)))
    {
      OnTouchEnd(changed);
    }

    /** onTouchMove: the moved fingers get their new records, then the
        gesture is applied against the snapshot, which is not retaken: a
        drag of the centre when a finger is down, a pinch when two are. */
    method OnTouchMove(changed: seq<DomTouch>)
      requires Valid()
      modifies this`currentTouches, chart
      ensures Valid()
      ensures currentTouches == MoveTouches(old(currentTouches), changed)
      ensures touchStartState == old(touchStartState) && mouseDownState == old(mouseDownState)
      ensures chart.screenWidth == old(chart.screenWidth) && chart.screenHeight == old(chart.screenHeight)
      ensures Dragging(currentTouches, touchStartState) ==>
                var h := DragTarget(touchStartState.value, currentTouches, 120.0 / chart.screenHeight);
                chart.viewAz == h.az && chart.viewEl == Clamp(h.el, -120.0, 120.0)
      ensures !Dragging(currentTouches, touchStartState) ==>
                chart.viewAz == old(chart.viewAz) && chart.viewEl == old(chart.viewEl)
      ensures Pinching(currentTouches, touchStartState) ==>
                chart.fovY == Clamp(PinchTarget(sqrt, touchStartState.value, currentTouches,
                                                120.0 / chart.screenHeight), 30.0, 120.0)
      ensures !Pinching(currentTouches, touchStartState) ==> chart.fovY == old(chart.fovY)
      ensures !Dragging(currentTouches, touchStartState) ==> unchanged(chart)
      ensures var rezoom := ZoomChanges(sqrt, currentTouches, touchStartState,
                                        120.0 / chart.screenHeight, old(chart.fovY));
              chart.projectionUpdates == old(chart.projectionUpdates) + (if rezoom then 1 else 0)
              && chart.frames == old(chart.frames) + (if Dragging(currentTouches, touchStartState) then 1 else 0)
                                                   + (if rezoom then 1 else 0)
    {
      ReplaceTouches(changed);
      MoveKeepsIds(old(currentTouches), changed);

      var anglePerPixel := 120.0 / chart.screenHeight;
      if 1 <= |currentTouches| && 1 <= |touchStartState.value.touches| {
        Drag(anglePerPixel);
      }
      if 2 <= |currentTouches| && 2 <= |touchStartState.value.touches| {
        Zoom(anglePerPixel);
      }
    }

    /** The "Move" part of onTouchMove: set the view from the motion of the
        fingers' centre since the snapshot. */
    method Drag(anglePerPixel: real)
      requires Valid() && Dragging(currentTouches, touchStartState)
      modifies chart
      ensures Valid()
      ensures var h := DragTarget(touchStartState.value, currentTouches, anglePerPixel);
              chart.viewAz == h.az && chart.viewEl == Clamp(h.el, -120.0, 120.0)
      ensures chart.fovY == old(chart.fovY) && chart.matProj == old(chart.matProj)
      ensures chart.screenWidth == old(chart.screenWidth) && chart.screenHeight == old(chart.screenHeight)
      ensures chart.projectionUpdates == old(chart.projectionUpdates) && chart.frames == old(chart.frames) + 1
    {
      var start := touchStartState.value;
      var currCenter := AverageXY(currentTouches);
      var view := DragBy(start, currCenter.value, anglePerPixel);
      chart.SetViewDir(view.az, view.el);
    }

    /** The "Zoom" part of onTouchMove: set the field of view from the
        change of distance between the first two fingers. */
    method Zoom(anglePerPixel: real)
      requires Valid() && Pinching(currentTouches, touchStartState)
      modifies chart
      ensures Valid()
      ensures chart.fovY == Clamp(PinchTarget(sqrt, touchStartState.value, currentTouches, anglePerPixel),
                                  30.0, 120.0)
      ensures chart.viewAz == old(chart.viewAz) && chart.viewEl == old(chart.viewEl)
      ensures chart.screenWidth == old(chart.screenWidth) && chart.screenHeight == old(chart.screenHeight)
      ensures !ZoomChanges(sqrt, currentTouches, touchStartState, anglePerPixel, old(chart.fovY)) ==>
                unchanged(chart)
      ensures ZoomChanges(sqrt, currentTouches, touchStartState, anglePerPixel, old(chart.fovY)) ==>
                chart.projectionUpdates == old(chart.projectionUpdates) + 1 && chart.frames == old(chart.frames) + 1
    {
      var start := touchStartState.value;
      var startDistanceX := start.touches[0].x - start.touches[1].x;
      var startDistanceY := start.touches[0].y - start.touches[1].y;
      var startDistance := Hypot(sqrt, startDistanceX, startDistanceY);
      var currDistanceX := currentTouches[0].x - currentTouches[1].x;
      var currDistanceY := currentTouches[0].y - currentTouches[1].y;
      var currDistance := Hypot(sqrt, currDistanceX, currDistanceY);
      assert startDistance == Spread(sqrt, start.touches);
      assert currDistance == Spread(sqrt, currentTouches);
      chart.SetFOV(PinchBy(start.fov, startDistance, currDistance, anglePerPixel));
    }

    /** The loop of onTouchMove: a new record for each moved finger found. */
    method ReplaceTouches(changed: seq<DomTouch>)
      modifies this`currentTouches
      ensures currentTouches == MoveTouches(old(currentTouches), changed)
    {
      for ti := 0 to |changed|
        invariant currentTouches == MoveTouches(old(currentTouches), changed[..ti])
      {
        assert changed[..ti + 1][..ti] == changed[..ti];
        var index := FindTouchById(currentTouches, changed[ti].identifier);
        if index >= 0 {
          currentTouches := currentTouches[index := Touch(changed[ti].identifier, changed[ti].clientX,
                                                          changed[ti].clientY)];
        }
      }
      assert changed[..|changed|] == changed;
    }

    /** onMouseDown: remember the press and the view. */
    method OnMouseDown(clientX: real, clientY: real)
      requires Valid()
      modifies this`mouseDownState
      ensures Valid()
      ensures mouseDownState == Some(MouseDownState(clientX, clientY, chart.viewAz, chart.viewEl))
    {
      mouseDownState := Some(MouseDownState(clientX, clientY, chart.viewAz, chart.viewEl));
    }

    /** onMouseUp: forget the press. */
    method OnMouseUp()
      requires Valid()
      modifies this`mouseDownState
      ensures Valid()
      ensures mouseDownState.None?
    {
      mouseDownState := None;
    }

    /** onMouseMove: with the button down, turn the view by the motion since
        the press, 2·fov/height degrees per pixel; without it, nothing. */
    method OnMouseMove(clientX: real, clientY: real)
      requires Valid()
      modifies chart
      ensures Valid()
      ensures chart.screenWidth == old(chart.screenWidth) && chart.screenHeight == old(chart.screenHeight)
      ensures mouseDownState.None? ==> unchanged(chart)
      ensures mouseDownState.Some? ==>
                var h := MouseDragTarget(mouseDownState.value, clientX, clientY,
                                         2.0 * old(chart.fovY) / old(chart.screenHeight));
                chart.viewAz == h.az && chart.viewEl == Clamp(h.el, -120.0, 120.0)
                && chart.fovY == old(chart.fovY) && chart.matProj == old(chart.matProj)
                && chart.projectionUpdates == old(chart.projectionUpdates) && chart.frames == old(chart.frames) + 1
    {
      var anglePerPixel := 2.0 * chart.fovY / chart.screenHeight;
      if mouseDownState.Some? {
        var view := MouseDragTarget(mouseDownState.value, clientX, clientY, anglePerPixel);
        chart.SetViewDir(view.az, view.el);
      }
    }

    /** onMouseWheel: zoom by a hundredth of a degree per unit of deltaY. */
    method OnMouseWheel(deltaY: real)
      requires Valid()
      modifies chart
      ensures Valid()
      ensures chart.fovY == Clamp(old(chart.fovY) + deltaY * 0.01, 30.0, 120.0)
      ensures chart.viewAz == old(chart.viewAz) && chart.viewEl == old(chart.viewEl)
      ensures chart.screenWidth == old(chart.screenWidth) && chart.screenHeight == old(chart.screenHeight)
      ensures Clamp(old(chart.fovY) + deltaY * 0.01, 30.0, 120.0) == old(chart.fovY) ==> unchanged(chart)
      ensures Clamp(old(chart.fovY) + deltaY * 0.01, 30.0, 120.0) != old(chart.fovY) ==>
                chart.projectionUpdates == old(chart.projectionUpdates) + 1 && chart.frames == old(chart.frames) + 1
    {
      chart.SetFOVDelta(deltaY * 0.01);
    }
  }
}
