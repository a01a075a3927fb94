/** The editor as the page runs it: one object whose fields are the module-level
    variables, with one method per event handler. Each handler updates the fields in
    place, and its postcondition says the new state is what Editor.Step gives for the
    same event, so every lemma about Step and Run describes these handlers. */
module Session {
  import opened Geometry
  import opened Controls
  import opened Editor

  /** What a click on the download button does. */
  datatype DownloadAction = Prompt(message: string) | ExportImage | ExportVideo

  /** The download button: exporting is gated on loaded media, and the media kind
      chooses the exporter. */
  function DownloadChoice(s: State): (a: DownloadAction)
    ensures a.Prompt? <==> !s.mediaLoaded
    ensures !s.mediaLoaded ==> a == Prompt("Please upload an image or video first.")
    ensures a == ExportImage <==> s.mediaLoaded && s.mediaType == Image
    ensures a == ExportVideo <==> s.mediaLoaded && s.mediaType != Image
  {
    if !s.mediaLoaded then Prompt("Please upload an image or video first.")
    else if s.mediaType == Image then ExportImage
    else ExportVideo
  }

  class EditorSession {
    const canvas: Canvas
    var mediaType: MediaKind
    var mediaLoaded: bool
    var scale: real
    var rotationDeg: int
    var posX: real
    var posY: real
    var isDragging: bool
    var dragStartX: real
    var dragStartY: real
    var joy: Joystick

    /** The fields as one value of the transition system. */
    ghost function Snapshot(): State
      reads this
    {
      State(mediaType, mediaLoaded, scale, rotationDeg, posX, posY,
            isDragging, dragStartX, dragStartY, joy)
    }

    ghost predicate Valid()
      reads this
    {
      Inv(Snapshot())
    }

    constructor (c: Canvas)
      ensures Valid() && canvas == c && Snapshot() == Initial()
    {
      canvas := c;
      mediaType, mediaLoaded := NoMedia, false;
      scale, rotationDeg, posX, posY := 1.0, 0, 0.0, 0.0;
      isDragging, dragStartX, dragStartY := false, 0.0, 0.0;
      joy := Joystick(false, false, false, false, 1, 0);
    }

    /** The file input changed; `file` is the chosen file's MIME type, if any. */
    method OnFileChange(file: Option<string>)
      requires Valid()
      modifies this
      ensures Valid() && Snapshot() == Step(canvas, old(Snapshot()), FileChange(file))
    {
      if file.None? {
        return;
      }
      var isVideo := StartsWith(file.value, "video/");
      mediaType := if isVideo then Video else Image;
      mediaLoaded := false;
    }

    /** The image decoded, or the video's playback started: reset the transform to the
        cover fit of the reported size, an unknown dimension counting as 1. */
    method OnMediaReady(w: nat, h: nat)
      requires Valid()
      modifies this
      ensures Valid() && Snapshot() == Step(canvas, old(Snapshot()), MediaReady(w, h))
    {
      var cover := FitCover(canvas, OrOne(w) as real, OrOne(h) as real);
      scale := cover.scale;
      posX := cover.x;
      posY := cover.y;
      rotationDeg := 0;
      mediaLoaded := true;
    }

    method OnMouseDown(rect: Rect, client: Point)
      requires Valid()
      modifies this
      ensures Valid() && Snapshot() == Step(canvas, old(Snapshot()), MouseDown(rect, client))
    {
      if !mediaLoaded {
        return;
      }
      isDragging := true;
      var p := ToCanvasPoint(canvas, rect, client);
      dragStartX := p.x - posX;
      dragStartY := p.y - posY;
    }

    method OnMouseMove(rect: Rect, client: Point)
      requires Valid()
      modifies this
      ensures Valid() && Snapshot() == Step(canvas, old(Snapshot()), MouseMove(rect, client))
    {
      if !isDragging {
        return;
      }
      var p := ToCanvasPoint(canvas, rect, client);
      posX := p.x - dragStartX;
      posY := p.y - dragStartY;
    }

    /** Mouse button released anywhere in the window. */
    method OnMouseUp()
      requires Valid()
      modifies this
      ensures Valid() && Snapshot() == Step(canvas, old(Snapshot()), MouseUp)
    {
      isDragging := false;
    }

    method OnTouchStart(rect: Rect, touches: seq<Point>)
      requires Valid()
      modifies this
      ensures Valid() && Snapshot() == Step(canvas, old(Snapshot()), TouchStart(rect, touches))
    {
      if !mediaLoaded || |touches| != 1 {
        return;
      }
      var p := ToCanvasPoint(canvas, rect, touches[0]);
      isDragging := true;
      dragStartX := p.x - posX;
      dragStartY := p.y - posY;
    }

    method OnTouchMove(rect: Rect, touches: seq<Point>)
      requires Valid()
      modifies this
      ensures Valid() && Snapshot() == Step(canvas, old(Snapshot()), TouchMove(rect, touches))
    {
      if !isDragging || |touches| != 1 {
        return;
      }
      var p := ToCanvasPoint(canvas, rect, touches[0]);
      posX := p.x - dragStartX;
      posY := p.y - dragStartY;
    }

    method OnTouchEnd()
      requires Valid()
      modifies this
      ensures Valid() && Snapshot() == Step(canvas, old(Snapshot()), TouchEnd)
    {
      isDragging := false;
    }

    method OnTouchCancel()
      requires Valid()
      modifies this
      ensures Valid() && Snapshot() == Step(canvas, old(Snapshot()), TouchCancel)
    {
      isDragging := false;
    }

    /** The zoom slider moved; `value` is its parsed value, taken as it is. */
    method OnSliderInput(value: real)
      requires Valid()
      modifies this
      ensures Valid() && Snapshot() == Step(canvas, old(Snapshot()), SliderInput(value))
    {
      if !mediaLoaded {
        return;
      }
      scale := value;
    }

    /** The rotate button: +90 degrees, modulo 360. */
    method OnRotateClick()
      requires Valid()
      modifies this
      ensures Valid() && Snapshot() == Step(canvas, old(Snapshot()), RotateClick)
    {
      if !mediaLoaded {
        return;
      }
      rotationDeg := JsRem(rotationDeg + 90, 360);
    }

    /** A direction button pressed; `ticket` is the handle a frame request would return. */
    method JoyStart(dir: Direction, ticket: Ticket)
      requires Valid()
      modifies this
      ensures Valid() && Snapshot() == Step(canvas, old(Snapshot()), JoyPress(dir, ticket))
    {
      joy := joy.With(dir, true);
      if joy.raf == 0 {
        joy := joy.(raf := ticket);
      }
    }

    /** A direction button released (or left by the pointer). */
    method JoyStop(dir: Direction)
      requires Valid()
      modifies this
      ensures Valid() && Snapshot() == Step(canvas, old(Snapshot()), JoyRelease(dir))
    {
      joy := joy.With(dir, false);
      if !joy.up && !joy.down && !joy.left && !joy.right && joy.raf != 0 {
        joy := joy.(raf := 0);
      }
    }

    /** The pending joystick frame fires (the platform only runs a pending callback);
        `w` and `h` are the media element's reported size, `ticket` the handle of the
        frame it requests next. */
    method JoyStep(w: nat, h: nat, ticket: Ticket)
      requires Valid() && joy.raf != 0
      modifies this
      ensures Valid() && Snapshot() == Step(canvas, old(Snapshot()), JoyTick(w, h, ticket))
    {
      if !mediaLoaded {
        joy := joy.(raf := 0);
        assert Snapshot() == old(Snapshot()).(joy := old(joy).(raf := 0));
        return;
      }
      ghost var s0 := Snapshot();
      var v := Velocity(joy.speed);
      // Up and left move backwards, down and right forwards.
      var x := Shift(posX, joy.left, joy.right, v);
      var y := Shift(posY, joy.up, joy.down, v);
      ghost var moved := Point(x, y);
      if w != 0 && h != 0 {
        // Soft clamp to keep the media roughly in view.
        var minX, maxX := LowLimit(w, scale), canvas.W() - Pad;
        var minY, maxY := LowLimit(h, scale), canvas.H() - Pad;
        x := Clamp(x, minX, maxX);
        y := Clamp(y, minY, maxY);
      }
      posX, posY := x, y;
      joy := joy.(raf := ticket);
      assert Snapshot() == s0.(posX := x, posY := y, joy := s0.joy.(raf := ticket));
      JoyMoveMatches(canvas, s0, w, h, ticket, moved, x, y);
    }

    /** The joystick's centre button: cycle the speed 1 -> 2 -> 4 -> 1. */
    method OnCenterClick()
      requires Valid()
      modifies this
      ensures Valid() && Snapshot() == Step(canvas, old(Snapshot()), CenterClick)
    {
      joy := joy.(speed := if joy.speed == 1 then 2 else if joy.speed == 2 then 4 else 1);
    }

    /** The download button; changes nothing here and says which export, if any, runs. */
    method OnDownload() returns (a: DownloadAction)
      ensures a == DownloadChoice(Snapshot())
    {
      if !mediaLoaded {
        return Prompt("Please upload an image or video first.");
      }
      a := if mediaType == Image then ExportImage else ExportVideo;
    }
  }

  /** The state JoyStep reaches is JoyMove's: `moved` is the position after the moves
      along the held axes, and (x, y) the position after the optional clamp. */
  lemma JoyMoveMatches(c: Canvas, s: State, w: nat, h: nat, t: Ticket, moved: Point, x: real, y: real)
    requires s.mediaLoaded && s.joy.raf != 0
    requires moved.x == Shift(s.posX, s.joy.left, s.joy.right, Velocity(s.joy.speed))
    requires moved.y == Shift(s.posY, s.joy.up, s.joy.down, Velocity(s.joy.speed))
    requires w != 0 && h != 0 ==>
               x == Clamp(moved.x, LowLimit(w, s.scale), c.W() - Pad) &&
               y == Clamp(moved.y, LowLimit(h, s.scale), c.H() - Pad)
    requires w == 0 || h == 0 ==> x == moved.x && y == moved.y
    ensures Step(c, s, JoyTick(w, h, t)) == s.(posX := x, posY := y, joy := s.joy.(raf := t))
  {
    assert Step(c, s, JoyTick(w, h, t)) == JoyMove(c, s, w, h, t);
  }
}
