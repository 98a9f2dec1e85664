/** The rotary sign selector of src/components/ZodiacWheel.tsx.

    Three layers:
    - the arithmetic that turns a rotation (in degrees, a JavaScript number, here
      a `real`) into a snapped rotation and one of twelve sector indices;
    - the drag state machine, as a function `Step` from a `Wheel` state and one
      input event to the next state and the index reported to `onSelect`, if any;
    - `WheelComponent`, a class whose fields are the component's state and whose
      event handlers update them in place, each proved to perform `Step`. */
module ZodiacWheel {

  datatype Option<T> = None | Some(value: T)

  /** Number of sectors, one per sign. */
  const Sectors: int := 12

  /** Angular width of one sector, in degrees. */
  const SectorDegrees: real := 30.0

  // ---------------------------------------------------------------------------
  // JavaScript arithmetic
  // ---------------------------------------------------------------------------

  predicate IsInt(x: real) {
    x.Floor as real == x
  }

  /** `a` and `b` are the same wheel position: they differ by whole turns. */
  predicate SameTurn(a: real, b: real) {
    IsInt((a - b) / 360.0)
  }

  lemma IntIsInt(k: int)
    ensures IsInt(k as real)
  {
  }

  /** Whole turns add up. */
  lemma SameTurnTrans(a: real, b: real, c: real)
    requires SameTurn(a, b) && SameTurn(b, c)
    ensures SameTurn(a, c)
  {
    var p, q := ((a - b) / 360.0).Floor, ((b - c) / 360.0).Floor;
    assert (a - c) / 360.0 == (p + q) as real;
    IntIsInt(p + q);
  }

  /** `Math.trunc`: the integer part, rounding toward zero. */
  function Trunc(x: real): (t: int)
    ensures 0.0 <= x ==> 0 <= t && t as real <= x < t as real + 1.0
    ensures x < 0.0 ==> t <= 0 && t as real - 1.0 < x <= t as real
  {
    if x >= 0.0 then x.Floor else -((-x).Floor)
  }

  /** JavaScript `a % 360` on numbers: the remainder of the quotient truncated
      toward zero, so it takes the sign of `a`. */
  function JsRem360(a: real): (r: real)
    ensures 0.0 <= a ==> 0.0 <= r < 360.0
    ensures a < 0.0 ==> -360.0 < r <= 0.0
    ensures SameTurn(a, r)
  {
    var t := Trunc(a / 360.0);
    var r := a - 360.0 * t as real;
    assert (a - r) / 360.0 == t as real;
    IntIsInt(t);
    r
  }

  /** JavaScript `a % 12` on an integral number (truncating, as `JsRem`). */
  function JsRem12(a: int): (r: int)
    ensures 0 <= a ==> 0 <= r < 12
    ensures a < 0 ==> -12 < r <= 0
    ensures (a - r) % 12 == 0
  {
    if a >= 0 then a % 12 else -((-a) % 12)
  }

  /** `Math.round`: the nearest integer, halves going toward +infinity
      (so -1.5 rounds to -1). */
  function Round(x: real): (k: int)
    ensures x - 0.5 < k as real <= x + 0.5
  {
    (x + 0.5).Floor
  }

  /** Rounding commutes with shifting by a whole number. */
  lemma RoundShift(x: real, k: int)
    ensures Round(x + k as real) == Round(x) + k
  {
  }

  // ---------------------------------------------------------------------------
  // Snapping a rotation to a sector (ZodiacWheel.tsx lines 53-57)
  // ---------------------------------------------------------------------------

  /** `((rotation % 360) + 360) % 360`: the rotation brought into one turn. */
  function Normalize(rotation: real): (n: real)
    ensures 0.0 <= n < 360.0
    ensures SameTurn(rotation, n)
  {
    var once := JsRem360(rotation);
    var n := JsRem360(once + 360.0);
    assert (once - (once + 360.0)) / 360.0 == -1.0;
    IntIsInt(-1);
    SameTurnTrans(once, once + 360.0, n);
    SameTurnTrans(rotation, once, n);
    n
  }

  /** `Math.round(rotation / 30) * 30`: the nearest sector boundary, keeping
      the winding number of a multi-turn rotation. */
  function Snap(rotation: real): (s: real)
    ensures IsInt(s / SectorDegrees)
    ensures rotation - 15.0 < s <= rotation + 15.0
  {
    var k := Round(rotation / SectorDegrees);
    assert (k as real * SectorDegrees) / SectorDegrees == k as real;
    k as real * SectorDegrees
  }

  /** `Math.round(normalizedRotation / 30) % 12` for a normalised rotation. */
  function NearestSector(normalized: real): (k: int)
    requires 0.0 <= normalized < 360.0
    ensures 0 <= k < Sectors
  {
    JsRem12(Round(normalized / SectorDegrees))
  }

  /** `(12 - nearestIndex) % 12`: the index reported when a drag ends on `rotation`. */
  function ReleaseIndex(rotation: real): (k: int)
    ensures 0 <= k < Sectors
  {
    JsRem12(Sectors - NearestSector(Normalize(rotation)))
  }

  /** The snapped rotation and the reported index name the same sector: the
      wheel sits at `-30 * index` up to whole turns, as a click on that sector
      would leave it. */
  lemma SnapMatchesIndex(rotation: real)
    ensures SameTurn(Snap(rotation), -30.0 * ReleaseIndex(rotation) as real)
  {
    var n := Normalize(rotation);
    var q := ((rotation - n) / 360.0).Floor;
    assert rotation / SectorDegrees == n / SectorDegrees + (12 * q) as real;
    RoundShift(n / SectorDegrees, 12 * q);
    var m := Round(n / SectorDegrees);
    var idx := ReleaseIndex(rotation);
    assert idx == JsRem12(Sectors - JsRem12(m));
    var j := OppositeSectors(m);
    assert Snap(rotation) == SectorDegrees * (m + 12 * q) as real;
    assert (Snap(rotation) - -30.0 * idx as real) / 360.0 == (j + q) as real;
    IntIsInt(j + q);
  }

  /** A rounded sector `m` of a normalised rotation and the index
      `(12 - m % 12) % 12` it reports add up to a whole number of turns. */
  lemma OppositeSectors(m: int) returns (j: int)
    requires 0 <= m <= Sectors
    ensures m + JsRem12(Sectors - JsRem12(m)) == Sectors * j
  {
    j := if m == 0 then 0 else 1;
  }

  /** A drag that ends on the rotation a click on sector `i` sets reports `i`
      and leaves the rotation where it was: clicks and drags agree. */
  lemma ClickMatchesRelease(i: int)
    requires 0 <= i < Sectors
    ensures Snap(-30.0 * i as real) == -30.0 * i as real
    ensures ReleaseIndex(-30.0 * i as real) == i
  {
    var r := -30.0 * i as real;
    assert Round(r / SectorDegrees) == -i;
    SnapMatchesIndex(r);
    var idx := ReleaseIndex(r);
    var d := (r - -30.0 * idx as real) / 360.0;
    assert d == (idx - i) as real / 12.0;
    assert -1.0 < d < 1.0;
    assert d.Floor == 0 || d.Floor == -1;
  }

  /** The tie case: -45 degrees lies halfway between two boundaries and snaps
      up to -30, while 372 degrees snaps to 360 and reports sector 0. */
  lemma SnapExamples()
    ensures Snap(-45.0) == -30.0
    ensures Snap(372.0) == 360.0 && ReleaseIndex(372.0) == 0
  {
    assert Round(-45.0 / SectorDegrees) == -1;
    assert Round(372.0 / SectorDegrees) == 12;
    assert Normalize(372.0) == 12.0 by {
      assert JsRem360(372.0) == 12.0 by { assert Trunc(372.0 / 360.0) == 1; }
    }
    assert Round(12.0 / SectorDegrees) == 0;
  }

  // ---------------------------------------------------------------------------
  // The drag state machine
  // ---------------------------------------------------------------------------

  /** What `getPointAngle` sees of a pointer: whether the wheel's element is
      mounted (`containerRef.current` is set) and the angle, in degrees, that
      `atan2` gives for the pointer's offset from the element's centre. */
  datatype Pointer = Pointer(mounted: bool, atan: real)

  /** `getPointAngle`: the pointer's angle around the wheel's centre, or 0 when
      the element is not mounted. */
  function PointAngle(p: Pointer): (a: real)
    ensures !p.mounted ==> a == 0.0
    ensures -180.0 < p.atan <= 180.0 ==> -180.0 < a <= 180.0
  {
    if p.mounted then p.atan else 0.0
  }

  /** The inputs the component reacts to. Down events reach the wheel's own
      element; move and up events reach the window listeners; `touches` is
      `e.touches.length`. */
  datatype Input =
    | MouseDown(p: Pointer)
    | TouchStart(touches: nat, p: Pointer)
    | MouseMove(p: Pointer)
    | MouseUp
    | TouchMove(touches: nat, p: Pointer)
    | TouchEnd
    | SignClick(index: int)
  {
    /** Delivered through a listener the effect adds to the window. */
    predicate IsWindowEvent() {
      MouseMove? || MouseUp? || TouchMove? || TouchEnd?
    }

    /** A window event that moves a drag. */
    predicate IsTrackingMove() {
      MouseMove? || (TouchMove? && touches == 1)
    }
  }

  /** The component's state. `rotation` and `dragging` are React state,
      `lastAngle` is `lastAngleRef.current`. `listening` says whether the window
      listeners are attached, and `heldRotation` is the value of `rotation` that
      those listeners' handlers captured in their closures: the effect that
      installs them runs only when `isDragging` changes. */
  datatype Wheel = Wheel(
    rotation: real,
    dragging: bool,
    lastAngle: real,
    listening: bool,
    heldRotation: real)

  /** Listeners are attached exactly while a drag is in progress. */
  predicate Valid(w: Wheel) {
    w.listening == w.dragging
  }

  /** The state right after mounting (the effect ran once and attached nothing). */
  const Mounted: Wheel := Wheel(0.0, false, 0.0, false, 0.0)

  /** `handleDragStart`. */
  function DragStart(w: Wheel, p: Pointer): (v: Wheel)
    ensures v.dragging && v.lastAngle == PointAngle(p)
    ensures v == w.(dragging := v.dragging, lastAngle := v.lastAngle)
  {
    w.(dragging := true, lastAngle := PointAngle(p))
  }

  /** `handleDragMove` as bound into a window listener; the closure's
      `isDragging` is true, so its guard never returns early. */
  function DragMove(w: Wheel, p: Pointer): (v: Wheel)
    ensures v.rotation - w.rotation == v.lastAngle - w.lastAngle
    ensures v.lastAngle == PointAngle(p)
    ensures v == w.(rotation := v.rotation, lastAngle := v.lastAngle)
  {
    var current := PointAngle(p);
    w.(rotation := w.rotation + (current - w.lastAngle), lastAngle := current)
  }

  /** Ending a drag that reads `seen` as the rotation: the drag stops, the
      rotation snaps, and an index is reported. */
  function Release(w: Wheel, seen: real): (out: (Wheel, int))
    ensures out.0 == w.(dragging := false, rotation := out.0.rotation)
    ensures IsInt(out.0.rotation / SectorDegrees)
    ensures seen - 15.0 < out.0.rotation <= seen + 15.0
    ensures 0 <= out.1 < Sectors
    ensures SameTurn(out.0.rotation, -30.0 * out.1 as real)
  {
    SnapMatchesIndex(seen);
    (w.(dragging := false, rotation := Snap(seen)), ReleaseIndex(seen))
  }

  /** `handleDragEnd` as the window listeners run it: the rotation it reads is
      the one its closure captured when the drag began, not the dragged one. */
  function ReleaseAsWritten(w: Wheel): (out: (Wheel, int))
    ensures w.heldRotation - 15.0 < out.0.rotation <= w.heldRotation + 15.0
    ensures 0 <= out.1 < Sectors && SameTurn(out.0.rotation, -30.0 * out.1 as real)
  {
    Release(w, w.heldRotation)
  }

  /** `handleDragEnd` reading the current rotation, as the snapping comment
      in the handler intends. */
  function ReleaseIntended(w: Wheel): (out: (Wheel, int))
    ensures w.rotation - 15.0 < out.0.rotation <= w.rotation + 15.0
    ensures 0 <= out.1 < Sectors && SameTurn(out.0.rotation, -30.0 * out.1 as real)
  {
    Release(w, w.rotation)
  }

  /** The `useEffect` keyed on `[isDragging]`: after a render in which
      `isDragging` differs from the value the effect last ran with, the old
      listeners are removed, new ones (capturing this render's `rotation`) are
      added if dragging, and none otherwise. */
  function Effect(w: Wheel): (v: Wheel)
    ensures Valid(v)
    ensures v.rotation == w.rotation && v.dragging == w.dragging && v.lastAngle == w.lastAngle
    ensures Valid(w) ==> v == w
  {
    if w.dragging != w.listening then w.(listening := w.dragging, heldRotation := w.rotation)
    else w
  }

  /** One input event: the next state and the index passed to `onSelect`, if any. */
  function Step(w: Wheel, e: Input): (out: (Wheel, Option<int>))
    requires Valid(w)
    ensures Valid(out.0)
    ensures e.IsWindowEvent() && !w.listening ==> out == (w, None)
    ensures (e.TouchStart? || e.TouchMove?) && e.touches != 1 ==> out == (w, None)
    ensures out.1.Some? && !e.SignClick? ==> 0 <= out.1.value < Sectors
    ensures e.SignClick? ==> out.1 == Some(e.index) && out.0.rotation == -30.0 * e.index as real
  {
    match e
    case MouseDown(p) =>
      (Effect(DragStart(w, p)), None)
    case TouchStart(touches, p) =>
      if touches == 1 then (Effect(DragStart(w, p)), None) else (w, None)
    case MouseMove(p) =>
      if w.listening then (Effect(DragMove(w, p)), None) else (w, None)
    case TouchMove(touches, p) =>
      if w.listening && touches == 1 then (Effect(DragMove(w, p)), None) else (w, None)
    case MouseUp =>
      if w.listening then (Effect(ReleaseAsWritten(w).0), Some(ReleaseAsWritten(w).1)) else (w, None)
    case TouchEnd =>
      if w.listening then (Effect(ReleaseAsWritten(w).0), Some(ReleaseAsWritten(w).1)) else (w, None)
    case SignClick(i) =>
      (Effect(w.(rotation := -30.0 * i as real)), Some(i))
  }

  function Reported(r: Option<int>): (s: seq<int>)
    ensures |s| <= 1
  {
    if r.Some? then [r.value] else []
  }

  /** A sequence of inputs: the final state and every index reported, in order. */
  function Run(w: Wheel, es: seq<Input>): (out: (Wheel, seq<int>))
    requires Valid(w)
    ensures Valid(out.0)
    ensures |out.1| <= |es|
    decreases |es|
  {
    if es == [] then (w, [])
    else
      var (v, r) := Step(w, es[0]);
      var (u, rs) := Run(v, es[1..]);
      (u, Reported(r) + rs)
  }

  /** Running one event. */
  lemma RunSingle(w: Wheel, e: Input)
    requires Valid(w)
    ensures Run(w, [e]) == (Step(w, e).0, Reported(Step(w, e).1))
  {
    assert [e][0] == e && [e][1..] == [];
    var (v, r) := Step(w, e);
    assert Run(v, []) == (v, []);
    assert Reported(r) + [] == Reported(r);
  }

  /** Running two sequences one after the other. */
  lemma {:induction false} RunAppend(w: Wheel, a: seq<Input>, b: seq<Input>)
    requires Valid(w)
    ensures Run(w, a + b) == (Run(Run(w, a).0, b).0, Run(w, a).1 + Run(Run(w, a).0, b).1)
    decreases |a|
  {
    if a == [] {
      assert a + b == b;
      assert Run(w, a) == (w, []);
      assert [] + Run(w, b).1 == Run(w, b).1;
    } else {
      var (v, r) := Step(w, a[0]);
      assert (a + b)[0] == a[0];
      assert (a + b)[1..] == a[1..] + b;
      RunAppend(v, a[1..], b);
      var mid := Run(v, a[1..]);
      var tail := Run(mid.0, b);
      assert Run(w, a) == (mid.0, Reported(r) + mid.1);
      assert Run(w, a + b) == (tail.0, Reported(r) + (mid.1 + tail.1));
      assert Reported(r) + (mid.1 + tail.1) == (Reported(r) + mid.1) + tail.1;
    }
  }

  /** While dragging, moves accumulate: after any run of moves the rotation has
      turned by exactly the last pointer angle minus the angle before the run,
      the last angle is that of the final move, nothing is reported and
      nothing else changes. */
  lemma {:induction false} MovesAccumulate(w: Wheel, es: seq<Input>)
    requires Valid(w) && w.dragging
    requires forall k :: 0 <= k < |es| ==> es[k].IsTrackingMove()
    ensures Run(w, es).1 == []
    ensures Run(w, es).0 == w.(rotation := Run(w, es).0.rotation, lastAngle := Run(w, es).0.lastAngle)
    ensures Run(w, es).0.rotation == w.rotation + (Run(w, es).0.lastAngle - w.lastAngle)
    ensures es != [] ==>
              var last := es[|es| - 1]; last.IsTrackingMove() && Run(w, es).0.lastAngle == PointAngle(last.p)
    decreases |es|
  {
    if es != [] {
      var v := Step(w, es[0]).0;
      assert v == DragMove(w, es[0].p);
      assert forall k :: 0 <= k < |es[1..]| ==> es[1..][k].IsTrackingMove() by {
        forall k | 0 <= k < |es[1..]| ensures es[1..][k].IsTrackingMove() {
          assert es[1..][k] == es[k + 1];
        }
      }
      MovesAccumulate(v, es[1..]);
      if |es| > 1 {
        assert es[1..][|es[1..]| - 1] == es[|es| - 1];
      }
    }
  }

  /** After a drag has ended, window events do nothing and report nothing, however
      many arrive, until the next down event: the listeners are gone. */
  lemma {:induction false} IdleIgnoresWindow(w: Wheel, es: seq<Input>)
    requires Valid(w) && !w.dragging
    requires forall k :: 0 <= k < |es| ==> es[k].IsWindowEvent()
    ensures Run(w, es) == (w, [])
    decreases |es|
  {
    if es != [] {
      assert Step(w, es[0]) == (w, None);
      assert forall k :: 0 <= k < |es[1..]| ==> es[1..][k].IsWindowEvent() by {
        forall k | 0 <= k < |es[1..]| ensures es[1..][k].IsWindowEvent() {
          assert es[1..][k] == es[k + 1];
        }
      }
      IdleIgnoresWindow(w, es[1..]);
    }
  }

  /** A whole mouse drag as the code is written: press, any moves, release. The
      release snaps the rotation the wheel had when the press happened, not the
      dragged one, and reports that rotation's sector. */
  lemma DragSessionAsWritten(w: Wheel, p0: Pointer, moves: seq<Input>)
    requires Valid(w) && !w.dragging
    requires forall k :: 0 <= k < |moves| ==> moves[k].IsTrackingMove()
    ensures var out := Run(w, [MouseDown(p0)] + moves + [MouseUp]);
            out.0.rotation == Snap(w.rotation) && out.1 == [ReleaseIndex(w.rotation)] && !out.0.dragging
  {
    var down := Step(w, MouseDown(p0)).0;
    assert down.listening && down.heldRotation == w.rotation;
    RunSingle(w, MouseDown(p0));
    RunAppend(w, [MouseDown(p0)], moves);
    MovesAccumulate(down, moves);
    var moved := Run(down, moves).0;
    assert Run(w, [MouseDown(p0)] + moves) == (moved, []);
    assert moved.listening && moved.heldRotation == w.rotation;
    RunSingle(moved, MouseUp);
    RunAppend(w, [MouseDown(p0)] + moves, [MouseUp]);
  }

  /** A click on a sector button as the browser delivers it: the press
      bubbles to the wheel and starts a drag, the window `mouseup` ends it,
      and only then does the button's click run. `onSelect` is called twice,
      first with the sector the wheel was already on, then with `i`. */
  lemma ClickAsDelivered(w: Wheel, p: Pointer, i: int)
    requires Valid(w) && !w.dragging && 0 <= i < Sectors
    ensures var out := Run(w, [MouseDown(p), MouseUp, SignClick(i)]);
            out.1 == [ReleaseIndex(w.rotation), i] && out.0.rotation == -30.0 * i as real && !out.0.dragging
  {
    DragSessionAsWritten(w, p, []);
    assert [MouseDown(p)] + [] + [MouseUp] == [MouseDown(p), MouseUp];
    var released := Run(w, [MouseDown(p), MouseUp]).0;
    RunSingle(released, SignClick(i));
    RunAppend(w, [MouseDown(p), MouseUp], [SignClick(i)]);
    assert [MouseDown(p), MouseUp] + [SignClick(i)] == [MouseDown(p), MouseUp, SignClick(i)];
  }

  /** From the mounted wheel, a click on sector 3 reports 0 and then 3. */
  lemma MountedClickReportsTwice()
    ensures Run(Mounted, [MouseDown(Pointer(true, 0.0)), MouseUp, SignClick(3)]).1 == [0, 3]
  {
    ClickAsDelivered(Mounted, Pointer(true, 0.0), 3);
    ClickMatchesRelease(0);
  }

  /** The same drag with the intended release: the wheel settles within half a
      sector of where the pointer took it, and the index names that sector. */
  lemma IntendedSessionTracksPointer(w: Wheel, p0: Pointer, moves: seq<Input>)
    requires Valid(w) && !w.dragging
    requires forall k :: 0 <= k < |moves| ==> moves[k].IsTrackingMove()
    ensures var dragged := Run(w, [MouseDown(p0)] + moves).0;
            var turned := w.rotation + (dragged.lastAngle - PointAngle(p0));
            var released := ReleaseIntended(dragged);
            turned - 15.0 < released.0.rotation <= turned + 15.0 &&
            SameTurn(released.0.rotation, -30.0 * released.1 as real) && !released.0.dragging
  {
    var dragged := Run(w, [MouseDown(p0)] + moves).0;
    assert dragged.rotation == w.rotation + (dragged.lastAngle - PointAngle(p0)) by {
      var down := Step(w, MouseDown(p0)).0;
      assert down.rotation == w.rotation && down.lastAngle == PointAngle(p0) && down.dragging;
      RunSingle(w, MouseDown(p0));
      RunAppend(w, [MouseDown(p0)], moves);
      MovesAccumulate(down, moves);
    }
  }

  /** Sector 9 is where a quarter turn clockwise lands. */
  lemma QuarterTurnIndex()
    ensures Snap(90.0) == 90.0 && ReleaseIndex(90.0) == 9
  {
    assert Round(90.0 / SectorDegrees) == 3;
    assert Trunc(90.0 / 360.0) == 0;
    assert JsRem360(90.0) == 90.0;
    assert Trunc(450.0 / 360.0) == 1;
    assert Normalize(90.0) == 90.0;
    assert NearestSector(90.0) == 3;
  }

  /** The discrepancy on one input: from the mounted wheel, press at 0 degrees,
      drag to 90 degrees and release. As written the wheel springs back to 0 and
      reports sector 0 (`IntendedReleaseExample` gives the intended outcome). */
  lemma StaleReleaseExample()
    ensures var out := Run(Mounted, [MouseDown(Pointer(true, 0.0)), MouseMove(Pointer(true, 90.0)), MouseUp]);
            out.0.rotation == 0.0 && out.1 == [0]
  {
    var p0, p1 := Pointer(true, 0.0), Pointer(true, 90.0);
    DragSessionAsWritten(Mounted, p0, [MouseMove(p1)]);
    assert [MouseDown(p0)] + [MouseMove(p1)] + [MouseUp] == [MouseDown(p0), MouseMove(p1), MouseUp];
    ClickMatchesRelease(0);
  }

  /** The same press and drag released as intended: the wheel settles at 90
      degrees and reports sector 9. */
  lemma IntendedReleaseExample()
    ensures var dragged := Run(Mounted, [MouseDown(Pointer(true, 0.0)), MouseMove(Pointer(true, 90.0))]).0;
            ReleaseIntended(dragged).0.rotation == 90.0 && ReleaseIntended(dragged).1 == 9
  {
    var p0, p1 := Pointer(true, 0.0), Pointer(true, 90.0);
    var down := Step(Mounted, MouseDown(p0)).0;
    var dragged := Step(down, MouseMove(p1)).0;
    RunSingle(Mounted, MouseDown(p0));
    RunSingle(down, MouseMove(p1));
    RunAppend(Mounted, [MouseDown(p0)], [MouseMove(p1)]);
    assert [MouseDown(p0)] + [MouseMove(p1)] == [MouseDown(p0), MouseMove(p1)];
    assert dragged.rotation == 90.0;
    QuarterTurnIndex();
  }

  // ---------------------------------------------------------------------------
  // The component
  // ---------------------------------------------------------------------------

  /** The mounted component. Each public method is one event handler; the
      `selections` field records the arguments passed to `onSelect`. */
  class WheelComponent {
    var rotation: real
    var isDragging: bool
    var lastAngle: real
    var listening: bool
    var heldRotation: real
    var selections: seq<int>

    function State(): Wheel
      reads this
    {
      Wheel(rotation, isDragging, lastAngle, listening, heldRotation)
    }

    constructor ()
      ensures State() == Mounted && selections == []
    {
      rotation, isDragging, lastAngle := 0.0, false, 0.0;
      listening, heldRotation := false, 0.0;
      selections := [];
    }

    /** The listener effect, run after a render. */
    method SyncListeners()
      modifies this
      ensures State() == Effect(old(State())) && selections == old(selections)
    {
      if isDragging != listening {
        if listening {
          listening := false;     // cleanup: removeEventListener
        }
        if isDragging {
          listening := true;      // addEventListener, closures capture rotation
        }
        heldRotation := rotation;
      }
    }

    /** `handleSignClick`. */
    method HandleSignClick(index: int)
      requires Valid(State())
      modifies this
      ensures State() == Step(old(State()), SignClick(index)).0
      ensures selections == old(selections) + [index]
    {
      rotation := -30.0 * index as real;
      selections := selections + [index];
    }

    /** `handleDragStart`. */
    method HandleDragStart(p: Pointer)
      modifies this
      ensures State() == DragStart(old(State()), p) && selections == old(selections)
    {
      isDragging := true;
      lastAngle := PointAngle(p);
    }

    /** `handleDragMove`, as bound in the installed listeners. */
    method HandleDragMove(p: Pointer)
      modifies this
      ensures State() == DragMove(old(State()), p) && selections == old(selections)
    {
      var currentAngle := PointAngle(p);
      var delta := currentAngle - lastAngle;
      rotation := rotation + delta;
      lastAngle := currentAngle;
    }

    /** `handleDragEnd`, as bound in the installed listeners: it reads the
        captured rotation. */
    method HandleDragEnd()
      modifies this
      ensures State() == ReleaseAsWritten(old(State())).0
      ensures selections == old(selections) + [ReleaseAsWritten(old(State())).1]
    {
      isDragging := false;
      var normalizedRotation := JsRem360(JsRem360(heldRotation) + 360.0);
      var nearestIndex := JsRem12(Round(normalizedRotation / 30.0));
      var snappedRotation := Round(heldRotation / 30.0) as real * 30.0;
      rotation := snappedRotation;
      selections := selections + [JsRem12(12 - nearestIndex)];
    }

    /** `onMouseDown` on the wheel. */
    method OnMouseDown(p: Pointer)
      requires Valid(State())
      modifies this
      ensures State() == Step(old(State()), MouseDown(p)).0 && selections == old(selections)
    {
      HandleDragStart(p);
      SyncListeners();
    }

    /** `onTouchStart` on the wheel: only a single touch starts a drag. */
    method OnTouchStart(touches: nat, p: Pointer)
      requires Valid(State())
      modifies this
      ensures State() == Step(old(State()), TouchStart(touches, p)).0 && selections == old(selections)
    {
      if touches == 1 {
        HandleDragStart(p);
      }
      SyncListeners();
    }

    /** A `mousemove` on the window. */
    method WindowMouseMove(p: Pointer)
      requires Valid(State())
      modifies this
      ensures State() == Step(old(State()), MouseMove(p)).0 && selections == old(selections)
    {
      if listening {
        HandleDragMove(p);
        SyncListeners();
      }
    }

    /** A `touchmove` on the window: only a single touch moves the drag. */
    method WindowTouchMove(touches: nat, p: Pointer)
      requires Valid(State())
      modifies this
      ensures State() == Step(old(State()), TouchMove(touches, p)).0 && selections == old(selections)
    {
      if listening && touches == 1 {
        HandleDragMove(p);
        SyncListeners();
      }
    }

    /** A `mouseup` on the window. */
    method WindowMouseUp()
      requires Valid(State())
      modifies this
      ensures State() == Step(old(State()), MouseUp).0
      ensures selections == old(selections) + Reported(Step(old(State()), MouseUp).1)
    {
      if listening {
        HandleDragEnd();
        SyncListeners();
      }
    }

    /** A `touchend` on the window, whatever the number of touches left. */
    method WindowTouchEnd()
      requires Valid(State())
      modifies this
      ensures State() == Step(old(State()), TouchEnd).0
      ensures selections == old(selections) + Reported(Step(old(State()), TouchEnd).1)
    {
      if listening {
        HandleDragEnd();
        SyncListeners();
      }
    }
  }
}
