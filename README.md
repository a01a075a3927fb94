# Photo-frame editor: transform and input state machine

This project models the editing core of a browser photo/video framing page
(`app.js`). The page keeps a handful of module-level variables:

- the media flags `mediaType` and `mediaLoaded`;
- the transform `scale`, `rotationDeg`, `posX` and `posY`;
- a drag session `isDragging`, `dragStartX` and `dragStartY`;
- a joystick record `joy`, with four held flags, a speed multiplier and the handle of
  the pending animation frame.

Event handlers update these variables in place.

The model has four modules, one file each:

- `geometry.dfy` (`Geometry`): the pure helpers.
  - `ToCanvasPoint` maps a client (screen) point to canvas pixels through the
    element's bounding rectangle. `ToClientPoint` is its inverse.
  - `FitCover` is the "cover" fit applied when media loads.
  - `OrOne` is the fallback to 1 (`n || 1`) for a reported size of 0.
  - `Pivot` is the rotation pivot used when drawing.
- `controls.dfy` (`Controls`): the discrete controls.
  - The joystick record.
  - JavaScript's truncating remainder `%`, used by the +90 degree rotate button.
  - The 1 → 2 → 4 → 1 speed cycle of the joystick's centre button.
  - The joystick velocity and the soft clamp `Math.min(Math.max(p, lo), hi)`.
- `editor.dfy` (`Editor`): the state as a value (`State`) and the inputs (`Event`).
  - `Step` gives the effect of each handler. `Run` folds `Step` over a sequence of
    events.
  - The lemmas state what the page promises over single events and event sequences:
    drag anchoring, gating on loaded media, the rotation and speed cycles, joystick
    scheduling and clamping, and convergence while only the joystick's "right" button is held.
- `session.dfy` (`Session`): the page as it runs, as the class `EditorSession`.
  - Its fields are the module-level variables. It has one method per handler, and each
    method updates the fields in place.
  - Every method that changes the fields has a postcondition saying the new fields
    are exactly what `Editor.Step` gives for the same event, so each lemma about
    `Step` and `Run` describes the handlers. `OnDownload` changes nothing and returns
    the action `DownloadChoice` picks.
  - Every mutating method also keeps the invariant: the angle is a right angle, the speed is 1,
    2 or 4, and a frame is pending only while a direction is held.

What the handlers read from the page is carried by the event, namely:

- the canvas's bounding rectangle;
- the touch list;
- the media element's reported size;
- the slider's parsed value;
- the handle a new frame request returns.

The joystick buttons' mouse and touch bindings (`bindJoy`, app.js:200-211) all reduce
to two events: `JoyPress`, which is `joyStart`, and `JoyRelease`, which is `joyStop`.
A pending joystick frame firing is the event `JoyTick`.

Coordinates and scale are `real`. The rotation is an `int`, and the joystick speed is an
`int`.

## Model

| member | source | states |
|---|---|---|
| Geometry.ClientRoundTrip | app.js:29-35 | for a non-empty canvas and any displayed rectangle of positive size, mapping a client point to canvas coordinates and back with `ToClientPoint` gives the client point again (the mapping is invertible) |
| Geometry.CanvasRoundTrip | app.js:29-35 | every canvas point is the image of the client point `ToClientPoint` gives for it (the mapping is onto) |
| Geometry.CornersMap | app.js:29-35 | the rectangle's top-left corner maps to the canvas origin and its bottom-right corner to (width, height) |
| Geometry.DisplacementScales | app.js:29-35 | the mapping is affine: a pointer displacement maps to the same displacement scaled by W / rect.width and H / rect.height, wherever it starts |
| Geometry.Max | app.js:37 | `Math.max` is an upper bound of both arguments and equals one of them |
| Geometry.Min | app.js:182-183 | `Math.min` is a lower bound of both arguments and equals one of them |
| Geometry.FitCoverCovers | app.js:36-39 | for positive w and h the cover fit stretches the media to at least the canvas on both axes and exactly onto it on at least one, and the media's centre is the canvas centre on both axes |
| Geometry.CoverIsSmallest | app.js:37 | any scale that also covers both axes is at least the cover scale, so the fit is the least covering scale |
| Geometry.CoverScenario | app.js:36-39 | an 800x600 canvas and a 1920x1080 medium give scale 5/9, x = -400/3, y = 0 |
| Geometry.OrOne | app.js:86 | the fallback to 1 for a reported dimension is positive and keeps a positive n unchanged |
| Geometry.CoverPivotIsCentre | app.js:51-52 | right after a cover fit, the rotation pivot `(posX + dw/2, posY + dh/2)` is the canvas centre |
| Controls.Joystick.With | app.js:190 | `joy[dir] = b` sets the flag for dir to b and leaves the other three flags, the speed and the frame handle unchanged |
| Controls.JsRem | app.js:151 | JavaScript's `a % n` for n > 0 lies strictly between -n and n, has the sign of a, and agrees with the mathematical remainder for a >= 0 |
| Controls.JsRemCongruent | app.js:151 | a and `a % n` differ by a whole multiple of n |
| Controls.NextRotation | app.js:151 | `(r + 90) % 360` takes each right angle to the next one (270 to 0), and any non-negative angle into [0, 360) |
| Controls.RotationsFromZero | app.js:151 | starting from 0, n presses of the rotate button show 90 * (n mod 4) degrees |
| Controls.FourRotations | app.js:151 | from any right angle, four presses give back the start angle and one, two or three presses do not |
| Controls.NextSpeed | app.js:217 | the centre button always gives a speed in {1, 2, 4}, doubles 1 to 2 and 2 to 4, wraps 4 to 1, and resets an invalid speed to 1 |
| Controls.SpeedCycle | app.js:217 | from a valid speed, three presses are the identity and two are not |
| Controls.SpeedsFromOne | app.js:217 | from the initial speed 1 (app.js:162), the n-th press of the centre button gives 1, 2 or 4 as n mod 3 is 0, 1 or 2 |
| Controls.Velocity | app.js:166-167 | for a valid speed the per-frame step `2 * speed` is 2, 4 or 8 pixels |
| Controls.Clamp | app.js:182-183 | the soft clamp is never above hi, never below lo when lo <= hi, keeps a value already in [lo, hi], and gives hi when the range is empty |
| Controls.ClampNearest | app.js:182-183 | when the range is non-empty the clamp is the point of [lo, hi] nearest the input |
| Controls.ClampIdempotent | app.js:182-183 | clamping twice into the same range is clamping once |
| Editor.Initial | app.js:16-25 | the page-load state (nothing uploaded, scale 1, angle 0, speed 1, no frame pending) satisfies the invariant, with no drag and no direction held |
| Editor.Step | app.js:70-219 | every handler keeps the invariant: the angle is a right angle, the speed is 1, 2 or 4, and a frame is pending only while a direction is held |
| Editor.Run | app.js:70-219 | any sequence of events keeps the invariant |
| Editor.MediaReadyResets | app.js:93-95 | a completed load (the image `onload`, and likewise the video path at app.js:86-88) marks the media loaded and sets the angle to 0. Its scale and position are a cover of the canvas for the reported size, with 0 replaced by 1. It changes nothing else: the drag session, the joystick and the media kind are kept |
| Editor.FileChangeUnloads | app.js:72-77 | choosing a file unloads the media and records "video" exactly when its MIME type starts with `video/`, else "image", and changes nothing else (the transform, the drag session and the joystick are kept until the load completes); an empty selection changes nothing |
| Editor.PressAnchors | app.js:103-127 | on loaded media, a mouse press or a single-touch start changes only the drag session: the drag flag is set and the anchor is the pressed canvas point's offset from the position, which is kept |
| Editor.MoveFollows | app.js:110-136 | during a drag, a mouse move or a single-touch move changes only the position, which becomes the pointer's canvas point minus the fixed anchor |
| Editor.DragSessionKept | app.js:110-115 | while a drag is active, events that neither press nor release keep the drag active and its anchor unchanged |
| Editor.DragAnchoring | app.js:103-115 | a press at canvas point P (mouse, or a single touch at app.js:119-127) with the media at (x0, y0), then any events that neither press nor release, then a move to Q, leave the media at (x0 + Q.x - P.x, y0 + Q.y - P.y) |
| Editor.MoveNeedsDrag | app.js:110-129 | without a drag session, mouse moves and touch moves change nothing |
| Editor.MultiTouchIgnored | app.js:120-129 | a touch start or touch move with other than exactly one touch point changes nothing |
| Editor.ReleaseEndsDrag | app.js:137-138 | touch end, touch cancel and window mouse up (app.js:116) clear the drag flag and change nothing else |
| Editor.UnloadedInputIgnored | app.js:103-152 | with no media loaded, any sequence of mouse presses, touch starts, slider inputs and rotate clicks leaves every field unchanged |
| Editor.SliderSetsScale | app.js:141-144 | with media loaded the slider sets the scale to its value, unvalidated, and changes nothing else |
| Editor.RotateClicks | app.js:149-152 | with media loaded, n rotate clicks advance the angle by n presses of the button and change nothing else |
| Editor.RotationAfterLoad | app.js:149-152 | after a load, the n-th rotate click shows 90 * (n mod 4) degrees |
| Editor.FourRotateClicks | app.js:149-152 | with media loaded, four rotate clicks restore the whole state |
| Editor.ThreeCenterClicks | app.js:216-219 | three clicks of the joystick's centre button restore the whole state |
| Editor.JoyStartSchedulesOnce | app.js:189-192 | joyStart holds the direction and requests a frame only when none is pending, so at most one motion chain runs. Apart from the frame handle the joystick is `joy[dir] = true` (the other flags and the speed kept), and nothing outside the joystick changes |
| Editor.JoyStopCancels | app.js:193-199 | joyStop releases the direction. A pending frame is cancelled exactly when no direction remains held, and no new frame is ever requested. Apart from the frame handle the joystick is `joy[dir] = false` (the other flags and the speed kept), and nothing outside the joystick changes |
| Editor.JoyTickUnloaded | app.js:165 | a joystick frame with no media loaded resets the frame handle to 0 and changes nothing else |
| Editor.JoyTickMoves | app.js:166-171 | without a known media size, a joystick frame moves each held axis by 2 * speed (up and left backwards, down and right forwards) and requests the next frame |
| Editor.JoyMove | app.js:166-184 | one frame of joystick motion with media loaded changes only posX, posY and the frame handle, which becomes the new request's |
| Editor.JoyTickClamps | app.js:164-187 | with a known media size, each axis first moves by 2 * speed along the held buttons to m, then: m inside [-dw + 80, W - 80] (resp. [-dh + 80, H - 80]) is kept, m past the upper limit becomes that limit, m below the lower limit becomes the lower limit, and an empty range gives the upper limit. Only the position and the frame handle change |
| Editor.HeldRightTick | app.js:164-188 | one frame holding only "right" inside the clamp range moves right by the velocity, stopping at W - 80, keeps the position in range, and keeps the joystick record apart from the new frame handle |
| Editor.HeldRightConverges | app.js:164-188 | holding only "right" from inside the clamp range, n frames leave posX = min(posX + n * v, W - 80) |
| Session.DownloadChoice | app.js:268-272 | the download button prompts "Please upload an image or video first." exactly when no media is loaded; otherwise it exports an image exactly when the media kind is image, and a video otherwise |
| Session.EditorSession.constructor | app.js:16-25 | the fields start at the page-load state, which satisfies the invariant |
| Session.EditorSession.OnFileChange | app.js:70-77 | the file-input handler updates the fields as `Step` does for `FileChange`, keeping the invariant |
| Session.EditorSession.OnMediaReady | app.js:92-95 | the load completion updates the fields as `Step` does for `MediaReady` (cover fit, angle 0, loaded) |
| Session.EditorSession.OnMouseDown | app.js:103-109 | mousedown updates the fields as `Step` does: with media loaded, a drag starts anchored at the pointer's offset from the position |
| Session.EditorSession.OnMouseMove | app.js:110-115 | mousemove updates the fields as `Step` does: while dragging, the anchor stays fixed and the position follows the pointer, so the grabbed point of the media stays under it |
| Session.EditorSession.OnMouseUp | app.js:116 | mouseup clears the drag flag, as `Step` does |
| Session.EditorSession.OnTouchStart | app.js:119-127 | touchstart updates the fields as `Step` does: a single touch on loaded media starts a drag |
| Session.EditorSession.OnTouchMove | app.js:128-136 | touchmove updates the fields as `Step` does: a single touch continues a drag |
| Session.EditorSession.OnTouchEnd | app.js:137 | touchend clears the drag flag, as `Step` does |
| Session.EditorSession.OnTouchCancel | app.js:138 | touchcancel clears the drag flag, as `Step` does |
| Session.EditorSession.OnSliderInput | app.js:141-144 | the slider updates the fields as `Step` does: it sets the scale once media is loaded |
| Session.EditorSession.OnRotateClick | app.js:149-152 | the rotate button updates the fields as `Step` does, with JavaScript's remainder, keeping a right angle |
| Session.EditorSession.JoyStart | app.js:189-192 | joyStart updates the joystick record as `Step` does for `JoyPress` |
| Session.EditorSession.JoyStop | app.js:193-199 | joyStop updates the joystick record as `Step` does for `JoyRelease` |
| Session.EditorSession.JoyStep | app.js:164-188 | a pending joystick frame moves and soft-clamps the position, or stops the chain when nothing is loaded, exactly as `Step` does for `JoyTick`, keeping the invariant |
| Session.EditorSession.OnCenterClick | app.js:216-219 | the centre button cycles the speed as `Step` does, keeping it in {1, 2, 4} |
| Session.EditorSession.OnDownload | app.js:268-272 | the download button changes nothing and picks the action `DownloadChoice` gives for the current fields |

## Left out

- Drawing and exporting are not modelled: `drawFrame`, `startLoop`, `exportImage` and
  `exportVideo` (app.js:42-67, 223-265) are canvas, network and DOM calls. This
  includes the inline `drawFrame()` in the touch-move handler and in `joyStep`. Only
  the pure pivot `Pivot` (app.js:52) is kept.
- Frame scheduling is not modelled. `requestAnimationFrame` and `cancelAnimationFrame`
  are platform scheduling. A frame handle is an abstract positive `Ticket` carried by
  the event, and 0 means "no frame pending".
- Upload I/O is not modelled: object URLs, `play()`, `await`, and the image `onerror`
  path (app.js:97), which only shows a message. Only the transform reset that follows a
  load is modelled, as the event `MediaReady`. Two uploads racing each other appear only
  as an interleaving of `FileChange` and `MediaReady` events.
- Page text updates are not modelled: `showMsg`, the joystick centre glyphs
  (app.js:214-215, 218) and `preventDefault` are presentation only. The prompt shown by
  the download button is kept as the `Prompt` action's message.
- Floating point is not modelled: coordinates and scale are exact reals, so rounding,
  `NaN` from `parseFloat` and infinities are not captured. `scale` after the slider is
  any real, unvalidated, as in the source.
- Zero-size rectangles are excluded. `Rect` requires a bounding rectangle of positive
  width and height, because an element of zero size receives no pointer events. Where
  JavaScript would divide by zero, the model has no such input.
- The `!e.touches` guard (app.js:120, 129) is modelled as an empty touch list.
- The order of upload and load completion is not enforced. In the source a load
  completion is only wired inside the file-input handler (app.js:85-88, 92), so it
  always follows a file change that set the media kind. The model lets `MediaReady`
  arrive in any state, so it also admits a loaded state whose media kind is still
  "none"; there the download button would pick the video export (app.js:271).
- Editor.Step: a `JoyTick` while no frame is pending changes nothing, because the
  platform never runs a callback that was not requested. Accordingly
  `Session.EditorSession.JoyStep` requires a pending frame, and the `JoyTick` lemmas
  assume one.
- Session.EditorSession.JoyStep: the four sequential `if (joy.X) pos -= v` updates
  (app.js:168-171) are computed per axis by `Shift`, which gives the same result.
- Geometry.FitCover (app.js:36-39) has no contract of its own. What it promises
  (covering, tightness on one axis, centring, least scale) is stated by
  `FitCoverCovers`, `CoverIsSmallest` and `CoverScenario`.
- Geometry.ToCanvasPoint has no contract of its own. What it promises (invertibility,
  corner mapping, affinity) is stated by the round-trip and mapping lemmas.
