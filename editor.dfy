/** The editor's module-level state and the effect of each input event on it, as a
    pure transition function. The class in module Session performs the same updates in
    place, one method per event handler, and is proved to agree with Step. */
module Editor {
  import opened Geometry
  import opened Controls

  datatype Option<T> = None | Some(value: T)

  /** `mediaType`: null before the first upload, then 'image' or 'video'. */
  datatype MediaKind = NoMedia | Image | Video

  /** All the state the handlers share: the media flags, the transform, the drag
      session and the joystick record. */
  datatype State = State(
    mediaType: MediaKind,
    mediaLoaded: bool,
    scale: real,
    rotationDeg: int,
    posX: real,
    posY: real,
    isDragging: bool,
    dragStartX: real,
    dragStartY: real,
    joy: Joystick)

  /** The state when the page has loaded and nothing has been uploaded. */
  function Initial(): (s: State)
    ensures Inv(s)
    ensures !s.mediaLoaded && !s.isDragging && !s.joy.AnyHeld() && s.joy.raf == 0
  {
    State(NoMedia, false, 1.0, 0, 0.0, 0.0, false, 0.0, 0.0,
          Joystick(false, false, false, false, 1, 0))
  }

  /** What the editor keeps true between events: the angle is a right angle, the speed
      is 1, 2 or 4, and an animation frame is pending only while a direction is held. */
  predicate Inv(s: State)
  {
    IsRightAngle(s.rotationDeg) && IsSpeed(s.joy.speed) && (s.joy.raf != 0 ==> s.joy.AnyHeld())
  }

  /** A handle returned by `requestAnimationFrame`: never 0. */
  type Ticket = n: nat | n > 0 witness 1

  /** The inputs the editor reacts to. Values the handlers read from the page (the
      canvas's bounding rectangle, the touch list, the media element's reported size,
      the slider's value, the next frame handle) are carried by the event. */
  datatype Event =
    | FileChange(file: Option<string>)            // the file input changed; the file's MIME type
    | MediaReady(w: nat, h: nat)                  // image decoded or video started; its reported size
    | MouseDown(rect: Rect, client: Point)
    | MouseMove(rect: Rect, client: Point)
    | MouseUp
    | TouchStart(rect: Rect, touches: seq<Point>)
    | TouchMove(rect: Rect, touches: seq<Point>)
    | TouchEnd
    | TouchCancel
    | SliderInput(value: real)                    // the parsed value of the zoom slider
    | RotateClick
    | JoyPress(dir: Direction, ticket: Ticket)     // joyStart; the handle a new frame request returns
    | JoyRelease(dir: Direction)                   // joyStop
    | JoyTick(w: nat, h: nat, ticket: Ticket)      // the pending joystick frame fires
    | CenterClick

  predicate StartsWith(s: string, prefix: string)
  {
    |prefix| <= |s| && s[..|prefix|] == prefix
  }

  /** Begins a drag at canvas point p: the anchor is p's offset from the position. */
  function Press(s: State, p: Point): State
  {
    s.(isDragging := true, dragStartX := p.x - s.posX, dragStartY := p.y - s.posY)
  }

  /** Moves the media so that the anchor sits under canvas point p. */
  function Follow(s: State, p: Point): State
  {
    s.(posX := p.x - s.dragStartX, posY := p.y - s.dragStartY)
  }

  /** One frame of joystick motion with media loaded: move along the held axes, then,
      when the media's size is known, soft-clamp the position. Only the position and
      the frame handle change. */
  function JoyMove(c: Canvas, s: State, w: nat, h: nat, t: Ticket): (r: State)
    ensures r.joy == s.joy.(raf := t)
    ensures r == s.(posX := r.posX, posY := r.posY, joy := r.joy)
  {
    var v := Velocity(s.joy.speed);
    var x := Shift(s.posX, s.joy.left, s.joy.right, v);
    var y := Shift(s.posY, s.joy.up, s.joy.down, v);
    if w != 0 && h != 0 then
      s.(posX := Clamp(x, LowLimit(w, s.scale), c.W() - Pad),
         posY := Clamp(y, LowLimit(h, s.scale), c.H() - Pad),
         joy := s.joy.(raf := t))
    else
      s.(posX := x, posY := y, joy := s.joy.(raf := t))
  }

  /** The state after handling event e; Step keeps the invariant. */
  function Step(c: Canvas, s: State, e: Event): (r: State)
    ensures Inv(s) ==> Inv(r)
  {
    match e
    case FileChange(file) =>
      if file.None? then s
      else s.(mediaType := if StartsWith(file.value, "video/") then Video else Image,
              mediaLoaded := false)
    case MediaReady(w, h) =>
      var f := FitCover(c, OrOne(w) as real, OrOne(h) as real);
      s.(scale := f.scale, posX := f.x, posY := f.y, rotationDeg := 0, mediaLoaded := true)
    case MouseDown(rect, client) =>
      if !s.mediaLoaded then s else Press(s, ToCanvasPoint(c, rect, client))
    case MouseMove(rect, client) =>
      if !s.isDragging then s else Follow(s, ToCanvasPoint(c, rect, client))
    case MouseUp => s.(isDragging := false)
    case TouchStart(rect, touches) =>
      if !s.mediaLoaded || |touches| != 1 then s else Press(s, ToCanvasPoint(c, rect, touches[0]))
    case TouchMove(rect, touches) =>
      if !s.isDragging || |touches| != 1 then s else Follow(s, ToCanvasPoint(c, rect, touches[0]))
    case TouchEnd => s.(isDragging := false)
    case TouchCancel => s.(isDragging := false)
    case SliderInput(value) =>
      if !s.mediaLoaded then s else s.(scale := value)
    case RotateClick =>
      if !s.mediaLoaded then s else s.(rotationDeg := NextRotation(s.rotationDeg))
    case JoyPress(d, t) =>
      var j := s.joy.With(d, true);
      s.(joy := if j.raf == 0 then j.(raf := t) else j)
    case JoyRelease(d) =>
      var j := s.joy.With(d, false);
      s.(joy := if !j.AnyHeld() && j.raf != 0 then j.(raf := 0) else j)
    case JoyTick(w, h, t) =>
      // A frame fires only while one is pending.
      if s.joy.raf == 0 then s
      else if !s.mediaLoaded then s.(joy := s.joy.(raf := 0))
      else JoyMove(c, s, w, h, t)
    case CenterClick =>
      s.(joy := s.joy.(speed := NextSpeed(s.joy.speed)))
  }

  /** The state after handling the events of es in order; Run keeps the invariant. */
  function Run(c: Canvas, s: State, es: seq<Event>): (r: State)
    ensures Inv(s) ==> Inv(r)
    decreases |es|
  {
    if es == [] then s else Run(c, Step(c, s, es[0]), es[1..])
  }

  lemma {:induction false} RunAppend(c: Canvas, s: State, a: seq<Event>, b: seq<Event>)
    ensures Run(c, s, a + b) == Run(c, Run(c, s, a), b)
    decreases |a|
  {
    if a != [] {
      assert a + b != [];
      assert Run(c, s, a + b) == Run(c, Step(c, s, (a + b)[0]), (a + b)[1..]);
      assert (a + b)[0] == a[0];
      assert (a + b)[1..] == a[1..] + b;
      RunAppend(c, Step(c, s, a[0]), a[1..], b);
    } else {
      assert a + b == b;
    }
  }

  // ---------------------------------------------------------------------------
  // Upload

  /** A completed load shows the media unrotated, covering the canvas, centred on it,
      cropped on at most one axis; an unknown size counts as 1, so nothing divides by 0. */
  lemma MediaReadyResets(c: Canvas, s: State, w: nat, h: nat)
    ensures var r := Step(c, s, MediaReady(w, h));
            && r.mediaLoaded && r.rotationDeg == 0
            && IsCover(c, OrOne(w) as real, OrOne(h) as real, Cover(r.scale, r.posX, r.posY))
            && r.isDragging == s.isDragging && r.joy == s.joy && r.mediaType == s.mediaType
            && r == s.(scale := r.scale, posX := r.posX, posY := r.posY, rotationDeg := 0,
                       mediaLoaded := true)
  {
    FitCoverCovers(c, OrOne(w) as real, OrOne(h) as real);
  }

  /** Choosing a file marks the media as not loaded and records its kind from the MIME
      type; an empty selection changes nothing. */
  lemma FileChangeUnloads(c: Canvas, s: State, file: Option<string>)
    ensures var r := Step(c, s, FileChange(file));
            && (file.None? ==> r == s)
            && (file.Some? ==> !r.mediaLoaded && (r.mediaType == Video <==> StartsWith(file.value, "video/"))
                               && r.mediaType != NoMedia
                               && r == s.(mediaType := r.mediaType, mediaLoaded := false))
  {
  }

  // ---------------------------------------------------------------------------
  // Dragging

  /** A mouse press, or a touch with exactly one touch point, begins a drag. */
  predicate StartsDrag(e: Event)
  {
    e.MouseDown? || (e.TouchStart? && |e.touches| == 1)
  }

  /** A mouse move, or a touch move with exactly one touch point, continues a drag. */
  predicate ContinuesDrag(e: Event)
  {
    e.MouseMove? || (e.TouchMove? && |e.touches| == 1)
  }

  /** The canvas point under the pointer of a drag event. */
  function DragPoint(c: Canvas, e: Event): Point
    requires StartsDrag(e) || ContinuesDrag(e)
  {
    match e
    case MouseDown(rect, client) => ToCanvasPoint(c, rect, client)
    case MouseMove(rect, client) => ToCanvasPoint(c, rect, client)
    case TouchStart(rect, touches) => ToCanvasPoint(c, rect, touches[0])
    case TouchMove(rect, touches) => ToCanvasPoint(c, rect, touches[0])
  }

  /** Events that neither press nor release: they leave the drag session alone. */
  predicate KeepsDrag(e: Event)
  {
    !(e.MouseDown? || e.TouchStart? || e.MouseUp? || e.TouchEnd? || e.TouchCancel?)
  }

  /** A press on loaded media starts a drag whose anchor puts the pressed canvas point
      at the anchor's offset from the position; the transform and everything else stay. */
  lemma PressAnchors(c: Canvas, s: State, e: Event)
    requires s.mediaLoaded && StartsDrag(e)
    ensures var r := Step(c, s, e);
            && r == s.(isDragging := true, dragStartX := r.dragStartX, dragStartY := r.dragStartY)
            && r.posX + r.dragStartX == DragPoint(c, e).x
            && r.posY + r.dragStartY == DragPoint(c, e).y
  {
  }

  /** A move during a drag changes only the position, which puts the anchor back under
      the pointer's canvas point. */
  lemma MoveFollows(c: Canvas, s: State, e: Event)
    requires s.isDragging && ContinuesDrag(e)
    ensures var r := Step(c, s, e);
            && r == s.(posX := r.posX, posY := r.posY)
            && r.posX + r.dragStartX == DragPoint(c, e).x
            && r.posY + r.dragStartY == DragPoint(c, e).y
  {
  }

  /** Between a press and a release the drag session and its anchor are untouched. */
  lemma {:induction false} DragSessionKept(c: Canvas, s: State, es: seq<Event>)
    requires s.isDragging
    requires forall i :: 0 <= i < |es| ==> KeepsDrag(es[i])
    ensures var r := Run(c, s, es);
            r.isDragging && r.dragStartX == s.dragStartX && r.dragStartY == s.dragStartY
    decreases |es|
  {
    if es != [] {
      assert KeepsDrag(es[0]);
      DragSessionKept(c, Step(c, s, es[0]), es[1..]);
    }
  }

  /** Drag anchoring: press at canvas point P while the media is at (x0, y0), then any
      events that neither press nor release, ending with a move to Q; the media is at
      (x0 + Q.x - P.x, y0 + Q.y - P.y), whatever the intermediate events were. The same
      holds for the mouse and for a single touch point. */
  lemma DragAnchoring(c: Canvas, s: State, down: Event, mid: seq<Event>, move: Event)
    requires s.mediaLoaded && StartsDrag(down) && ContinuesDrag(move)
    requires forall i :: 0 <= i < |mid| ==> KeepsDrag(mid[i])
    ensures var r := Run(c, s, [down] + mid + [move]);
            var p, q := DragPoint(c, down), DragPoint(c, move);
            r.posX == s.posX + (q.x - p.x) && r.posY == s.posY + (q.y - p.y) && r.isDragging
  {
    var s1 := Step(c, s, down);
    assert s1 == Press(s, DragPoint(c, down));
    RunAppend(c, s, [down] + mid, [move]);
    RunAppend(c, s, [down], mid);
    assert Run(c, s, [down]) == s1;
    DragSessionKept(c, s1, mid);
    var s2 := Run(c, s1, mid);
    assert Run(c, s2, [move]) == Step(c, s2, move);
  }

  /** Without a drag session, mouse and touch moves change nothing. */
  lemma MoveNeedsDrag(c: Canvas, s: State, e: Event)
    requires !s.isDragging && (e.MouseMove? || e.TouchMove?)
    ensures Step(c, s, e) == s
  {
  }

  /** A touch event with other than exactly one touch point neither starts nor
      continues a drag. */
  lemma MultiTouchIgnored(c: Canvas, s: State, e: Event)
    requires (e.TouchStart? || e.TouchMove?) && |e.touches| != 1
    ensures Step(c, s, e) == s
  {
  }

  /** Mouse up, touch end and touch cancel end the drag and change nothing else. */
  lemma ReleaseEndsDrag(c: Canvas, s: State, e: Event)
    requires e.MouseUp? || e.TouchEnd? || e.TouchCancel?
    ensures Step(c, s, e) == s.(isDragging := false)
  {
  }

  // ---------------------------------------------------------------------------
  // Gating on loaded media

  /** The inputs that do nothing until media is loaded. */
  predicate NeedsMedia(e: Event)
  {
    e.MouseDown? || e.TouchStart? || e.SliderInput? || e.RotateClick?
  }

  /** With no media loaded, any sequence of presses, touches, slider moves and rotate
      clicks leaves every field of the state as it was. */
  lemma {:induction false} UnloadedInputIgnored(c: Canvas, s: State, es: seq<Event>)
    requires !s.mediaLoaded
    requires forall i :: 0 <= i < |es| ==> NeedsMedia(es[i])
    ensures Run(c, s, es) == s
    decreases |es|
  {
    if es != [] {
      assert NeedsMedia(es[0]);
      assert Step(c, s, es[0]) == s;
      UnloadedInputIgnored(c, s, es[1..]);
    }
  }

  /** The slider sets the scale to its value, unvalidated, once media is loaded. */
  lemma SliderSetsScale(c: Canvas, s: State, value: real)
    requires s.mediaLoaded
    ensures Step(c, s, SliderInput(value)) == s.(scale := value)
  {
  }

  // ---------------------------------------------------------------------------
  // Rotation and speed cycles

  /** `n` copies of e. */
  function Repeat(e: Event, n: nat): (es: seq<Event>)
    ensures |es| == n
  {
    if n == 0 then [] else [e] + Repeat(e, n - 1)
  }

  /** With media loaded, n rotate clicks advance the angle by n presses of the button
      and touch nothing else. */
  lemma {:induction false} RotateClicks(c: Canvas, s: State, n: nat)
    requires s.mediaLoaded
    ensures Run(c, s, Repeat(RotateClick, n)) == s.(rotationDeg := Rotations(s.rotationDeg, n))
    decreases n
  {
    if n > 0 {
      var s1 := s.(rotationDeg := NextRotation(s.rotationDeg));
      assert Step(c, s, RotateClick) == s1;
      assert Repeat(RotateClick, n)[1..] == Repeat(RotateClick, n - 1);
      RotateClicks(c, s1, n - 1);
      RotationsShift(s.rotationDeg, n - 1);
    }
  }

  /** Pressing once then n times is pressing n + 1 times. */
  lemma {:induction false} RotationsShift(r: int, n: nat)
    ensures Rotations(NextRotation(r), n) == Rotations(r, n + 1)
  {
    if n > 0 {
      RotationsShift(r, n - 1);
    }
  }

  /** After a load, the n-th rotate click shows 90 * (n mod 4) degrees; four clicks
      restore the whole state. */
  lemma RotationAfterLoad(c: Canvas, s: State, w: nat, h: nat, n: nat)
    ensures var loaded := Step(c, s, MediaReady(w, h));
            Run(c, loaded, Repeat(RotateClick, n)).rotationDeg == 90 * (n % 4)
  {
    var loaded := Step(c, s, MediaReady(w, h));
    RotateClicks(c, loaded, n);
    RotationsFromZero(n);
  }

  /** Four rotate clicks with media loaded restore the state. */
  lemma FourRotateClicks(c: Canvas, s: State)
    requires s.mediaLoaded && Inv(s)
    ensures Run(c, s, Repeat(RotateClick, 4)) == s
  {
    RotateClicks(c, s, 4);
    FourRotations(s.rotationDeg);
  }

  /** Three clicks of the joystick's centre button restore the state. */
  lemma ThreeCenterClicks(c: Canvas, s: State)
    requires Inv(s)
    ensures Run(c, s, Repeat(CenterClick, 3)) == s
  {
    var e := CenterClick;
    var k1 := NextSpeed(s.joy.speed);
    var k2 := NextSpeed(k1);
    var s1 := s.(joy := s.joy.(speed := k1));
    var s2 := s.(joy := s.joy.(speed := k2));
    assert Step(c, s, e) == s1;
    assert Step(c, s1, e) == s2;
    SpeedCycle(s.joy.speed);
    assert Step(c, s2, e) == s;
    assert Repeat(e, 3) == [e] + Repeat(e, 2);
    assert Repeat(e, 2) == [e] + Repeat(e, 1);
    assert Repeat(e, 1) == [e] + [];
    RunCons(c, s, e, Repeat(e, 2));
    RunCons(c, s1, e, Repeat(e, 1));
    RunCons(c, s2, e, []);
  }

  // ---------------------------------------------------------------------------
  // Joystick

  /** joyStart holds the direction and requests a frame only when none is pending, so
      at most one motion chain runs. */
  lemma JoyStartSchedulesOnce(c: Canvas, s: State, d: Direction, t: Ticket)
    ensures var r := Step(c, s, JoyPress(d, t));
            && r.joy.Held(d)
            && r.joy.raf == (if s.joy.raf == 0 then t else s.joy.raf)
            && r.joy.(raf := s.joy.raf) == s.joy.With(d, true)
            && r == s.(joy := r.joy)
  {
  }

  /** joyStop releases the direction; a pending frame is cancelled exactly when no
      direction remains held, and no frame is ever requested. */
  lemma JoyStopCancels(c: Canvas, s: State, d: Direction)
    ensures var r := Step(c, s, JoyRelease(d));
            && !r.joy.Held(d)
            && (s.joy.raf != 0 ==> (r.joy.raf == 0 <==> !r.joy.AnyHeld()))
            && (r.joy.raf == 0 || r.joy.raf == s.joy.raf)
            && r.joy.(raf := s.joy.raf) == s.joy.With(d, false)
            && r == s.(joy := r.joy)
  {
    var j := s.joy.With(d, false);
    assert !j.Held(d);
  }

  /** A joystick frame with no media loaded stops the chain without requesting another
      frame, and changes nothing else: position, transform and held buttons are kept. */
  lemma JoyTickUnloaded(c: Canvas, s: State, w: nat, h: nat, t: Ticket)
    requires !s.mediaLoaded && s.joy.raf != 0
    ensures Step(c, s, JoyTick(w, h, t)) == s.(joy := s.joy.(raf := 0))
  {
  }

  /** Without a known media size, a joystick frame moves each held axis by 2 * speed
      pixels: up and left backwards, down and right forwards. */
  lemma JoyTickMoves(c: Canvas, s: State, w: nat, h: nat, t: Ticket)
    requires s.mediaLoaded && s.joy.raf != 0 && (w == 0 || h == 0)
    ensures var r := Step(c, s, JoyTick(w, h, t));
            var v := 2.0 * (s.joy.speed as real);
            && r.posX == s.posX + (if s.joy.right then v else 0.0) - (if s.joy.left then v else 0.0)
            && r.posY == s.posY + (if s.joy.down then v else 0.0) - (if s.joy.up then v else 0.0)
            && r.joy.raf == t
  {
  }

  /** With a known media size, a joystick frame first moves each held axis by
      2 * speed pixels, as without one, and then pulls the moved position back into
      [minX, maxX] x [minY, maxY]: a moved position inside the range is kept, one past
      the far limit stops at it, and one short of the near limit stops there, unless
      the range is empty, where the far limit wins. */
  lemma JoyTickClamps(c: Canvas, s: State, w: nat, h: nat, t: Ticket)
    requires s.mediaLoaded && s.joy.raf != 0 && w != 0 && h != 0
    ensures var r := Step(c, s, JoyTick(w, h, t));
            var v := 2.0 * (s.joy.speed as real);
            var mx := s.posX + (if s.joy.right then v else 0.0) - (if s.joy.left then v else 0.0);
            var minX, maxX := LowLimit(w, s.scale), c.W() - Pad;
            && (minX <= mx <= maxX ==> r.posX == mx)
            && (mx > maxX ==> r.posX == maxX)
            && (mx < minX <= maxX ==> r.posX == minX)
            && (minX > maxX ==> r.posX == maxX)
            && r.joy == s.joy.(raf := t) && r == s.(posX := r.posX, posY := r.posY, joy := r.joy)
    ensures var r := Step(c, s, JoyTick(w, h, t));
            var v := 2.0 * (s.joy.speed as real);
            var my := s.posY + (if s.joy.down then v else 0.0) - (if s.joy.up then v else 0.0);
            var minY, maxY := LowLimit(h, s.scale), c.H() - Pad;
            && (minY <= my <= maxY ==> r.posY == my)
            && (my > maxY ==> r.posY == maxY)
            && (my < minY <= maxY ==> r.posY == minY)
            && (minY > maxY ==> r.posY == maxY)
  {
  }

  /** The horizontal position lies in the clamp range of a w-pixel-wide medium. */
  predicate InClampX(c: Canvas, s: State, w: nat)
  {
    LowLimit(w, s.scale) <= s.posX <= c.W() - Pad
  }

  /** One frame holding only "right" inside the clamp range moves the media right by
      v pixels, stopping at the right-hand limit, and keeps the joystick as it was. */
  lemma HeldRightTick(c: Canvas, s: State, w: nat, h: nat, t: Ticket)
    requires s.mediaLoaded && s.joy.raf != 0 && w != 0 && h != 0
    requires s.joy.right && !s.joy.left && !s.joy.up && !s.joy.down
    requires s.joy.speed >= 0
    requires InClampX(c, s, w)
    ensures var r := Step(c, s, JoyTick(w, h, t));
            && r.posX == Min(s.posX + Velocity(s.joy.speed), c.W() - Pad)
            && r.mediaLoaded && r.joy == s.joy.(raf := t) && r.scale == s.scale
            && InClampX(c, r, w)
  {
    var v, lo, hi := Velocity(s.joy.speed), LowLimit(w, s.scale), c.W() - Pad;
    var r := Step(c, s, JoyTick(w, h, t));
    assert r == JoyMove(c, s, w, h, t);
    assert Shift(s.posX, false, true, v) == s.posX + v;
    assert r.posX == Clamp(s.posX + v, lo, hi);
    assert v >= 0.0;
  }

  /** Running [e] + rest is stepping e, then running rest. */
  lemma RunCons(c: Canvas, s: State, e: Event, rest: seq<Event>)
    ensures Run(c, s, [e] + rest) == Run(c, Step(c, s, e), rest)
  {
    var es := [e] + rest;
    assert es[0] == e && es[1..] == rest;
  }

  /** One more event of a run of copies is one step, then the rest of the run. */
  lemma RepeatStep(c: Canvas, s: State, e: Event, n: nat, m: nat)
    requires n == m + 1
    ensures Run(c, s, Repeat(e, n)) == Run(c, Step(c, s, e), Repeat(e, m))
  {
    var rest := Repeat(e, m);
    assert Repeat(e, n) == [e] + rest;
    RunCons(c, s, e, rest);
  }

  /** Moving by v and clamping at hi, then moving m * v more and clamping, is moving
      (m + 1) * v and clamping once, for forward moves from below hi. */
  lemma DriftStep(x: real, v: real, hi: real, n: nat, m: nat, y: real)
    requires n == m + 1 && v >= 0.0 && x <= hi
    requires y == Min(Min(x + v, hi) + (m as real) * v, hi)
    ensures y == Min(x + (n as real) * v, hi)
  {
    assert n as real == (m as real) + 1.0;
    assert 0.0 <= m as real;
    assert ((m as real) + 1.0) * v == (m as real) * v + v;
    assert (m as real) * v >= 0.0;
  }

  /** Holding only "right" with the media inside the clamp range: after n frames the
      media has moved n * v pixels right, v being the joystick velocity, stopping at the
      right-hand limit, and there it stays. */
  lemma {:induction false} HeldRightConverges(c: Canvas, s: State, w: nat, h: nat, t: Ticket, n: nat, v: real)
    requires s.mediaLoaded && s.joy.raf != 0 && w != 0 && h != 0
    requires s.joy.right && !s.joy.left && !s.joy.up && !s.joy.down
    requires s.joy.speed >= 0 && v == Velocity(s.joy.speed)
    requires InClampX(c, s, w)
    ensures Run(c, s, Repeat(JoyTick(w, h, t), n)).posX == Min(s.posX + (n as real) * v, c.W() - Pad)
    decreases n
  {
    var e := JoyTick(w, h, t);
    var hi := c.W() - Pad;
    if n == 0 {
      assert Repeat(e, 0) == [];
      assert (n as real) * v == 0.0;
    } else {
      var m: nat := n - 1;
      HeldRightTick(c, s, w, h, t);
      var s1 := Step(c, s, e);
      RepeatStep(c, s, e, n, m);
      HeldRightConverges(c, s1, w, h, t, m, v);
      DriftStep(s.posX, v, hi, n, m, Run(c, s, Repeat(e, n)).posX);
    }
  }
}
