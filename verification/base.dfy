/** Scalar helpers shared by the whole model: an Option type, the clamp and
    truncating casts Rust applies to `f32` values, checked `usize`
    subtraction, and the constant pi. Every `f32` of the renderer is modelled
    as a Dafny `real`, so rounding is not modelled; the casts are. */
module Base {

  datatype Option<+T> = None | Some(value: T)

  /** `std::f32::consts::PI`, taken as the exact real constant. */
  const Pi: real := 3.14159265358979323846

  /** Largest `usize` value on a 64-bit target. */
  const UsizeMax: nat := 0xFFFF_FFFF_FFFF_FFFF

  function Abs(x: real): (r: real)
    ensures r >= 0.0
    ensures r == x || r == -x
  {
    if x < 0.0 then -x else x
  }

  /** `f32::clamp(self, lo, hi)`: Rust panics when `lo > hi`, hence the
      precondition; otherwise values below `lo` become `lo`, values above
      `hi` become `hi`, and everything else is returned unchanged. */
  function Clamp(x: real, lo: real, hi: real): (r: real)
    requires lo <= hi
    ensures lo <= r <= hi
    ensures lo <= x <= hi ==> r == x
    ensures x < lo ==> r == lo
    ensures hi < x ==> r == hi
  {
    if x < lo then lo else if x > hi then hi else x
  }

  /** Clamping is idempotent and never moves a value past the nearer bound. */
  lemma ClampIdempotent(x: real, lo: real, hi: real)
    requires lo <= hi
    ensures Clamp(Clamp(x, lo, hi), lo, hi) == Clamp(x, lo, hi)
    ensures Abs(Clamp(x, lo, hi) - x) <= Abs(lo - x) || Abs(Clamp(x, lo, hi) - x) <= Abs(hi - x)
  {
  }

  /** Truncation toward zero of a real (the integer part Rust's float casts keep). */
  function Trunc(x: real): (r: int)
    ensures x >= 0.0 ==> 0 <= r && r as real <= x < r as real + 1.0
    ensures x < 0.0 ==> r <= 0 && r as real - 1.0 < x <= r as real
  {
    if x >= 0.0 then x.Floor else -((-x).Floor)
  }

  /** `x as usize` for an `f32`: truncates toward zero and saturates, so
      every negative value becomes 0 and values past the range become
      `usize::MAX`. */
  function AsUsize(x: real): (r: nat)
    ensures r <= UsizeMax
    ensures x < 1.0 ==> r == 0
    ensures 0.0 <= x < UsizeMax as real ==> r as real <= x < r as real + 1.0
    ensures UsizeMax as real <= x ==> r == UsizeMax
  {
    if x < 1.0 then 0
    else if x >= UsizeMax as real then UsizeMax
    else Trunc(x)
  }

  /** `x as u8` for an `f32`: truncates toward zero and saturates into 0..255. */
  function AsU8(x: real): (r: nat)
    ensures r <= 255
    ensures x < 1.0 ==> r == 0
    ensures 0.0 <= x < 255.0 ==> r as real <= x < r as real + 1.0
    ensures 255.0 <= x ==> r == 255
  {
    if x < 1.0 then 0
    else if x >= 255.0 then 255
    else Trunc(x)
  }

  /** The saturating casts are monotone: a larger input never yields a
      smaller byte. */
  lemma AsU8Monotone(x: real, y: real)
    requires x <= y
    ensures AsU8(x) <= AsU8(y)
  {
    if 1.0 <= x && y < 255.0 {
      assert x.Floor <= y.Floor;
    }
  }

  /** `a - b` on `usize` in a debug build: `None` stands for the
      "attempt to subtract with overflow" panic. */
  function UsizeSub(a: nat, b: nat): (r: Option<nat>)
    ensures r.Some? <==> b <= a
    ensures r.Some? ==> r.value + b == a
  {
    if b <= a then Some(a - b) else None
  }

  /** One full turn, `2.0 * PI`. */
  const Turn: real := 2.0 * Pi

  /** `x % (2.0 * PI)` on `f32`: the remainder of truncated division by a
      full turn. It keeps the sign of the dividend, is smaller than a turn
      in magnitude, and differs from `x` by a whole number of turns. */
  function WrapTurn(x: real): (r: real)
    ensures -Turn < r < Turn
    ensures x >= 0.0 ==> r >= 0.0
    ensures x <= 0.0 ==> r <= 0.0
    ensures ((x - r) / Turn).Floor as real == (x - r) / Turn
  {
    assert Turn > 0.0;
    var q := Trunc(x / Turn);
    var r := x - q as real * Turn;
    assert x >= 0.0 ==> q as real <= x / Turn < q as real + 1.0;
    assert x < 0.0 ==> q as real - 1.0 < x / Turn <= q as real;
    assert (x - r) / Turn == q as real;
    assert (q as real).Floor == q;
    r
  }
}
