/** The discrete controls of the editor: the joystick record, the +90 degree rotate
    button, the speed cycle of the joystick's centre button and the soft clamp. */
module Controls {
  import opened Geometry

  /** Pixels moved per animation frame at speed 1. */
  const BaseSpeed: real := 2.0

  /** The margin the soft clamp keeps between the media and the canvas edge. */
  const Pad: real := 80.0

  /** The four directional buttons of the joystick. */
  datatype Direction = Up | Down | Left | Right

  /** The joystick record: the four held flags, the speed multiplier and the handle of
      the pending animation frame (0 when no frame is scheduled). */
  datatype Joystick = Joystick(up: bool, down: bool, left: bool, right: bool, speed: int, raf: nat)
  {
    /** Whether the button for `d` is held. */
    function Held(d: Direction): bool
    {
      match d
      case Up => up
      case Down => down
      case Left => left
      case Right => right
    }

    /** Whether any direction is held. */
    predicate AnyHeld()
    {
      up || down || left || right
    }

    /** The record with the flag for `d` set to `b` (`joy[dir] = b`). */
    function With(d: Direction, b: bool): (j: Joystick)
      ensures j.Held(d) == b
      ensures forall e :: e != d ==> j.Held(e) == Held(e)
      ensures j.speed == speed && j.raf == raf
    {
      match d
      case Up => this.(up := b)
      case Down => this.(down := b)
      case Left => this.(left := b)
      case Right => this.(right := b)
    }
  }

  /** JavaScript's `a % n` for a positive divisor: the remainder takes the sign of the
      dividend (truncated division), unlike Dafny's Euclidean `%`. */
  function JsRem(a: int, n: int): (r: int)
    requires n > 0
    ensures -n < r < n
    ensures a >= 0 ==> r >= 0
    ensures a <= 0 ==> r <= 0
    ensures a >= 0 ==> r == a % n
  {
    if a >= 0 then a % n else -((-a) % n)
  }

  /** JavaScript's remainder differs from the dividend by a whole multiple of n. */
  lemma JsRemCongruent(a: int, n: int)
    requires n > 0
    ensures exists k :: a - JsRem(a, n) == k * n
  {
    if a >= 0 {
      assert a - JsRem(a, n) == (a / n) * n;
    } else {
      var m := -a;
      assert m == (m / n) * n + m % n;
      assert a - JsRem(a, n) == (-(m / n)) * n;
    }
  }

  /** The rotation angles the editor can show. */
  predicate IsRightAngle(r: int)
  {
    r == 0 || r == 90 || r == 180 || r == 270
  }

  /** The rotate button: `(rotationDeg + 90) % 360`. */
  function NextRotation(r: int): (q: int)
    ensures IsRightAngle(r) ==> q == if r == 270 then 0 else r + 90
    ensures 0 <= r ==> 0 <= q < 360
  {
    JsRem(r + 90, 360)
  }

  /** The angle after `n` presses of the rotate button, starting from `r`. */
  function Rotations(r: int, n: nat): int
  {
    if n == 0 then r else NextRotation(Rotations(r, n - 1))
  }

  /** From 0, the n-th press shows 90 * (n mod 4) degrees: the rotation cycles through
      0, 90, 180, 270 and back to 0. */
  lemma {:induction false} RotationsFromZero(n: nat)
    ensures Rotations(0, n) == 90 * (n % 4)
  {
    if n > 0 {
      var k := (n - 1) % 4;
      RotationsFromZero(n - 1);
      assert IsRightAngle(90 * k) by { CountUpFour(n); }
      assert n % 4 == (if k == 3 then 0 else k + 1) by { CountUpFour(n); }
    }
  }

  /** Counting up by one steps n mod 4 through 0, 1, 2, 3 and back to 0. */
  lemma CountUpFour(n: nat)
    requires n > 0
    ensures 0 <= (n - 1) % 4 < 4
    ensures n % 4 == if (n - 1) % 4 == 3 then 0 else (n - 1) % 4 + 1
  {
  }

  /** Four presses of the rotate button give back the angle they started from, and
      no fewer do. */
  lemma FourRotations(r: int)
    requires IsRightAngle(r)
    ensures Rotations(r, 4) == r
    ensures Rotations(r, 1) != r && Rotations(r, 2) != r && Rotations(r, 3) != r
  {
    var r1 := NextRotation(r);
    var r2 := NextRotation(r1);
    var r3 := NextRotation(r2);
    assert Rotations(r, 1) == r1;
    assert Rotations(r, 2) == r2;
    assert Rotations(r, 3) == r3;
    assert Rotations(r, 4) == NextRotation(r3);
  }

  /** The speed multipliers of the joystick. */
  predicate IsSpeed(s: int)
  {
    s == 1 || s == 2 || s == 4
  }

  /** The centre button: 1 becomes 2, 2 becomes 4, anything else becomes 1. */
  function NextSpeed(s: int): (t: int)
    ensures IsSpeed(t)
    ensures IsSpeed(s) ==> t != s
    ensures IsSpeed(s) && s < 4 ==> t == 2 * s
    ensures s == 4 ==> t == 1
    ensures !IsSpeed(s) ==> t == 1
  {
    if s == 1 then 2 else if s == 2 then 4 else 1
  }

  /** The speed after `n` presses of the centre button, starting from `s`. */
  function Speeds(s: int, n: nat): int
  {
    if n == 0 then s else NextSpeed(Speeds(s, n - 1))
  }

  /** From the initial speed 1, the n-th press of the centre button gives 1, 2 or 4 as
      n mod 3 is 0, 1 or 2: the speed turns 1 -> 2 -> 4 -> 1, doubling until it wraps. */
  lemma {:induction false} SpeedsFromOne(n: nat)
    ensures Speeds(1, n) == if n % 3 == 0 then 1 else if n % 3 == 1 then 2 else 4
  {
    if n > 0 {
      var k := (n - 1) % 3;
      SpeedsFromOne(n - 1);
      assert n % 3 == (if k == 2 then 0 else k + 1) by { CountUpThree(n); }
    }
  }

  /** Counting up by one steps n mod 3 through 0, 1, 2 and back to 0. */
  lemma CountUpThree(n: nat)
    requires n > 0
    ensures 0 <= (n - 1) % 3 < 3
    ensures n % 3 == if (n - 1) % 3 == 2 then 0 else (n - 1) % 3 + 1
  {
  }

  /** Three presses of the centre button restore a speed in {1, 2, 4}. */
  lemma SpeedCycle(s: int)
    requires IsSpeed(s)
    ensures NextSpeed(NextSpeed(NextSpeed(s))) == s
    ensures NextSpeed(NextSpeed(s)) != s
  {
  }

  /** The distance moved per frame along an active axis: 2 pixels times the speed. */
  function Velocity(speed: int): (v: real)
    ensures IsSpeed(speed) ==> v == 2.0 || v == 4.0 || v == 8.0
  {
    BaseSpeed * (speed as real)
  }

  /** Moves `p` by `v` backwards when `neg` is held and forwards when `pos` is held;
      both held cancel out. */
  function Shift(p: real, neg: bool, pos: bool, v: real): real
  {
    p - (if neg then v else 0.0) + (if pos then v else 0.0)
  }

  /** The soft clamp's lower limit along an axis where the media is `size` pixels at
      `scale`: the media's far edge stays at least Pad pixels inside the canvas. */
  function LowLimit(size: nat, scale: real): real
  {
    -((size as real) * scale) + Pad
  }

  /** The soft clamp `Math.min(Math.max(p, lo), hi)`: never above `hi`, never below
      `lo` unless the range is empty, and a value inside the range is kept. */
  function Clamp(p: real, lo: real, hi: real): (r: real)
    ensures r <= hi
    ensures lo <= hi ==> lo <= r
    ensures lo <= p <= hi ==> r == p
    ensures lo > hi ==> r == hi
  {
    Min(Max(p, lo), hi)
  }

  /** When the range is non-empty the clamp gives the point of [lo, hi] nearest to p. */
  lemma ClampNearest(p: real, lo: real, hi: real, q: real)
    requires lo <= q <= hi
    ensures var r := Clamp(p, lo, hi);
            (if r >= p then r - p else p - r) <= (if q >= p then q - p else p - q)
  {
  }

  /** Clamping twice into the same range is clamping once. */
  lemma ClampIdempotent(p: real, lo: real, hi: real)
    ensures Clamp(Clamp(p, lo, hi), lo, hi) == Clamp(p, lo, hi)
  {
  }
}
