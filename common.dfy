/** Shared vocabulary of the overlay UI: nullable values, delegate and Unity
    object handles, geometry, the reference resolution, the float helpers
    (Mathf.Ceil, Mathf.Clamp, Maths.Near) over reals, the fly-in direction
    table and the abstract record of a reversible tween. */
module Common {

  datatype Option<+T> = None | Some(value: T)

  /** A C# delegate supplied by a caller, known only by its identity. */
  type Callback = nat

  /** A Unity object made by Instantiate, known only by its identity. */
  type Handle = nat

  datatype Vector2 = Vector2(x: real, y: real)

  datatype SizeF = SizeF(width: real, height: real)

  /** Systems.ReferenceResolution: the constant 1080 x 1920 reference canvas. */
  const ReferenceWidth: real := 1080.0
  const ReferenceHeight: real := 1920.0

  /** Maths.TinyNum, the tolerance of Maths.Near. */
  const TinyNum: real := 0.0001

  function Abs(x: real): (r: real)
    ensures r >= 0.0 && (r == x || r == -x)
  {
    if x < 0.0 then -x else x
  }

  /** Maths.Near: the two values differ by at most TinyNum. */
  predicate Near(a: real, b: real)
  {
    Abs(a - b) <= TinyNum
  }

  /** True of a real that has no fractional part. */
  predicate IsWhole(x: real)
  {
    x == x.Floor as real
  }

  /** Mathf.Ceil over reals: the least whole number not below x. */
  function Ceil(x: real): (r: real)
    ensures IsWhole(r) && x <= r < x + 1.0
  {
    var f := (-x).Floor;
    assert (-f) as real == -(f as real);
    assert ((-f) as real).Floor == -f;
    (-f) as real
  }

  /** Mathf.Clamp: a value below min becomes min, otherwise a value above max
      becomes max (min wins when the bounds cross). */
  function Clamp(value: real, min: real, max: real): (r: real)
    ensures min <= max ==> min <= r <= max
    ensures min <= value <= max ==> r == value
    ensures r == value || r == min || r == max
  {
    if value < min then min else if value > max then max else value
  }

  /** Clamping commutes with shifting the value and both bounds. */
  lemma ClampShift(value: real, min: real, max: real, d: real)
    ensures Clamp(value + d, min + d, max + d) == Clamp(value, min, max) + d
  {
  }

  /** Ceil is the only whole number in [x, x + 1). */
  lemma CeilUnique(x: real, r: real)
    requires IsWhole(r) && x <= r < x + 1.0
    ensures r == Ceil(x)
  {
    var c := Ceil(x);
    assert r.Floor as real - c.Floor as real < 1.0;
    assert c.Floor as real - r.Floor as real < 1.0;
    assert r.Floor == c.Floor;
  }

  /** Shifting by a whole number commutes with rounding up. */
  lemma CeilShiftWhole(x: real, n: real)
    requires IsWhole(n)
    ensures Ceil(x + n) == Ceil(x) + n
  {
    var c := Ceil(x);
    var a, b := c.Floor, n.Floor;
    assert c + n == (a + b) as real;
    assert ((a + b) as real).Floor == a + b;
    CeilUnique(x + n, c + n);
  }

  /** AlertOperator.FlyInDirection: the side of the screen a dialog enters
      from. `NoDirection` is the enum's `None`, renamed apart from Option.None. */
  datatype FlyInDirection = NoDirection | FromLeft | FromRight | FromUp | FromBottom

  /** Where a dialog is put before it flies to the centre (0, 0): one
      reference extent beyond the named edge, on the centre line of the other
      axis; NoDirection keeps the current position. */
  function StartOffset(direct: FlyInDirection, current: Vector2): (r: Vector2)
    ensures direct.FromLeft? ==> r == Vector2(-ReferenceWidth, 0.0)
    ensures direct.FromRight? ==> r == Vector2(ReferenceWidth, 0.0)
    ensures direct.FromUp? ==> r == Vector2(0.0, ReferenceHeight)
    ensures direct.FromBottom? ==> r == Vector2(0.0, -ReferenceHeight)
    ensures direct.NoDirection? ==> r == current
  {
    match direct
    case FromLeft => Vector2(-ReferenceWidth, 0.0)
    case FromRight => Vector2(ReferenceWidth, 0.0)
    case FromUp => Vector2(0.0, ReferenceHeight)
    case FromBottom => Vector2(0.0, -ReferenceHeight)
    case NoDirection => current
  }

  /** Every real direction starts the dialog fully outside the reference
      canvas (whose centre is the origin), and different directions start it
      in different places. */
  lemma StartOffsetOffScreen(d: FlyInDirection, e: FlyInDirection, current: Vector2)
    requires !d.NoDirection? && !e.NoDirection?
    ensures Abs(StartOffset(d, current).x) >= ReferenceWidth
         || Abs(StartOffset(d, current).y) >= ReferenceHeight
    ensures d != e ==> StartOffset(d, current) != StartOffset(e, current)
  {
  }

  /** DOTween ease curves used by the animators; EngineDefault is whatever
      ease DOTween's settings give a tween that never set one. */
  datatype Ease = EngineDefault | InOutBounce | OutCubic

  /** The abstract state of a reversible DOTween tweener: whether it is
      running, and whether its last play was backwards. */
  datatype Tween = Tween(playing: bool, backwards: bool)

  /** string.IsNullOrEmpty(s) ? fallback : s */
  function OrDefault(s: Option<string>, fallback: string): (r: string)
    ensures s.None? || s == Some("") ==> r == fallback
    ensures s.Some? && s.value != "" ==> r == s.value
  {
    if s.None? || s.value == "" then fallback else s.value
  }
}
