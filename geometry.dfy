/** Canvas geometry of the editor: the mapping from screen (client) coordinates to
    canvas pixel coordinates, and the "cover" fit applied when media loads. */
module Geometry {

  /** A point, in client (screen) or canvas pixel coordinates. */
  datatype Point = Point(x: real, y: real)

  /** The size of the canvas's pixel buffer (its `width` and `height` attributes). */
  datatype Canvas = Canvas(width: nat, height: nat) {
    function W(): real { width as real }
    function H(): real { height as real }
  }

  /** The canvas element's on-screen bounding rectangle, in client coordinates. */
  datatype ClientRect = ClientRect(left: real, top: real, width: real, height: real)

  /** A bounding rectangle that can receive pointer events: it has a positive size. */
  type Rect = r: ClientRect | r.width > 0.0 && r.height > 0.0
    witness ClientRect(0.0, 0.0, 1.0, 1.0)

  /** Converts a client point to canvas coordinates, undoing the CSS scaling of the
      element: the rectangle's extent is stretched onto the pixel buffer. */
  function ToCanvasPoint(c: Canvas, r: Rect, client: Point): Point
  {
    Point((client.x - r.left) * (c.W() / r.width), (client.y - r.top) * (c.H() / r.height))
  }

  /** The inverse mapping, from a canvas point back to the client point over it. */
  function ToClientPoint(c: Canvas, r: Rect, p: Point): Point
    requires c.width > 0 && c.height > 0
  {
    Point(r.left + p.x * r.width / c.W(), r.top + p.y * r.height / c.H())
  }

  /** One axis of the mapping followed by its inverse is the identity. */
  lemma AxisRoundTrip(n: real, origin: real, extent: real, client: real)
    requires n > 0.0 && extent > 0.0
    ensures origin + (client - origin) * (n / extent) * extent / n == client
  {
    var d := client - origin;
    assert (n / extent) * extent == n;
    assert d * (n / extent) * extent == d * n;
    assert d * n / n == d;
  }

  /** One axis of the inverse mapping followed by the mapping is the identity. */
  lemma AxisRoundTripBack(n: real, origin: real, extent: real, p: real)
    requires n > 0.0 && extent > 0.0
    ensures (origin + p * extent / n - origin) * (n / extent) == p
  {
    var d := p * extent / n;
    assert origin + d - origin == d;
    assert d * n == p * extent;
    assert d * (n / extent) == d * n / extent;
    assert p * extent / extent == p;
  }

  /** Mapping a client point to the canvas and back recovers the client point, for any
      displayed size of the canvas element. */
  lemma ClientRoundTrip(c: Canvas, r: Rect, client: Point)
    requires c.width > 0 && c.height > 0
    ensures ToClientPoint(c, r, ToCanvasPoint(c, r, client)) == client
  {
    AxisRoundTrip(c.W(), r.left, r.width, client.x);
    AxisRoundTrip(c.H(), r.top, r.height, client.y);
  }

  /** Every canvas point is the image of exactly the client point ToClientPoint gives. */
  lemma CanvasRoundTrip(c: Canvas, r: Rect, p: Point)
    requires c.width > 0 && c.height > 0
    ensures ToCanvasPoint(c, r, ToClientPoint(c, r, p)) == p
  {
    AxisRoundTripBack(c.W(), r.left, r.width, p.x);
    AxisRoundTripBack(c.H(), r.top, r.height, p.y);
  }

  /** The displayed rectangle covers the pixel buffer exactly: its top-left corner maps
      to the canvas origin and its bottom-right corner to (width, height). */
  lemma CornersMap(c: Canvas, r: Rect)
    ensures ToCanvasPoint(c, r, Point(r.left, r.top)) == Point(0.0, 0.0)
    ensures ToCanvasPoint(c, r, Point(r.left + r.width, r.top + r.height)) == Point(c.W(), c.H())
  {
    assert (r.left + r.width - r.left) * (c.W() / r.width) == c.W();
    assert (r.top + r.height - r.top) * (c.H() / r.height) == c.H();
  }

  /** A pointer displacement maps to a canvas displacement scaled by the same factor,
      whatever the starting point: the mapping is affine. */
  lemma DisplacementScales(c: Canvas, r: Rect, a: Point, b: Point)
    ensures ToCanvasPoint(c, r, b).x - ToCanvasPoint(c, r, a).x == (b.x - a.x) * (c.W() / r.width)
    ensures ToCanvasPoint(c, r, b).y - ToCanvasPoint(c, r, a).y == (b.y - a.y) * (c.H() / r.height)
  {
    var kx, ky := c.W() / r.width, c.H() / r.height;
    assert (b.x - r.left) * kx - (a.x - r.left) * kx == (b.x - a.x) * kx;
    assert (b.y - r.top) * ky - (a.y - r.top) * ky == (b.y - a.y) * ky;
  }

  /** JavaScript's `Math.max` on two numbers. */
  function Max(a: real, b: real): (m: real)
    ensures m >= a && m >= b && (m == a || m == b)
  {
    if a >= b then a else b
  }

  /** JavaScript's `Math.min` on two numbers. */
  function Min(a: real, b: real): (m: real)
    ensures m <= a && m <= b && (m == a || m == b)
  {
    if a <= b then a else b
  }

  /** A cover transform: the scale and the top-left position of the scaled media. */
  datatype Cover = Cover(scale: real, x: real, y: real)

  /** The "cover" fit of a w-by-h medium: the larger of the two axis ratios, with the
      scaled media centred on the canvas. */
  function FitCover(c: Canvas, w: real, h: real): (f: Cover)
    requires w > 0.0 && h > 0.0
  {
    var s := Max(c.W() / w, c.H() / h);
    Cover(s, (c.W() - w * s) / 2.0, (c.H() - h * s) / 2.0)
  }

  /** Transform f shows a w-by-h medium as a cover of the canvas: the media fills the
      canvas on both axes, is cropped on at most one of them, and its centre is the
      canvas centre. */
  predicate IsCover(c: Canvas, w: real, h: real, f: Cover)
  {
    && f.scale * w >= c.W() && f.scale * h >= c.H()
    && (f.scale * w == c.W() || f.scale * h == c.H())
    && f.x + w * f.scale / 2.0 == c.W() / 2.0
    && f.y + h * f.scale / 2.0 == c.H() / 2.0
  }

  /** The cover fit is a cover. */
  lemma FitCoverCovers(c: Canvas, w: real, h: real)
    requires w > 0.0 && h > 0.0
    ensures IsCover(c, w, h, FitCover(c, w, h))
  {
    var s := Max(c.W() / w, c.H() / h);
    CoverBounds(c.W(), w, s);
    CoverBounds(c.H(), h, s);
  }

  /** A scale at least n / d stretches d to at least n, and to exactly n at n / d. */
  lemma CoverBounds(n: real, d: real, s: real)
    requires d > 0.0 && s >= n / d
    ensures s * d >= n
    ensures s == n / d ==> s * d == n
  {
    assert (n / d) * d == n;
    assert s * d >= (n / d) * d;
  }

  /** The cover scale is the least scale that covers the canvas: any scale t that also
      fills both axes is at least as large. */
  lemma CoverIsSmallest(c: Canvas, w: real, h: real, t: real)
    requires w > 0.0 && h > 0.0
    requires t * w >= c.W() && t * h >= c.H()
    ensures t >= FitCover(c, w, h).scale
  {
    var f := FitCover(c, w, h);
    FitCoverCovers(c, w, h);
    if f.scale * w == c.W() {
      assert t * w >= f.scale * w;
    } else {
      assert t * h >= f.scale * h;
    }
  }

  /** A 1920x1080 picture loaded into an 800x600 canvas is scaled by 5/9 so that its
      height fits exactly, and shifted 400/3 pixels left to centre it horizontally. */
  lemma CoverScenario()
    ensures FitCover(Canvas(800, 600), 1920.0, 1080.0) == Cover(5.0 / 9.0, -400.0 / 3.0, 0.0)
  {
    assert 800.0 / 1920.0 < 600.0 / 1080.0;
    assert 600.0 / 1080.0 == 5.0 / 9.0;
  }

  /** JavaScript's `n || 1` on a reported dimension: an unknown (zero) size becomes 1. */
  function OrOne(n: nat): (r: nat)
    ensures r > 0
    ensures n > 0 ==> r == n
  {
    if n == 0 then 1 else n
  }

  /** The rotation pivot used when drawing: the centre of the scaled bounding box whose
      top-left corner is (posX, posY). */
  function Pivot(posX: real, posY: real, dw: real, dh: real): Point
  {
    Point(posX + dw / 2.0, posY + dh / 2.0)
  }

  /** Right after a cover fit, the rotation pivot is the centre of the canvas. */
  lemma CoverPivotIsCentre(c: Canvas, w: real, h: real)
    requires w > 0.0 && h > 0.0
    ensures var f := FitCover(c, w, h);
            Pivot(f.x, f.y, w * f.scale, h * f.scale) == Point(c.W() / 2.0, c.H() / 2.0)
  {
  }
}
