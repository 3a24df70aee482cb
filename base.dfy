/**
 * Machine integer widths, opaque floating-point values and the `Option`
 * wrapper shared by the whole model of the bindings.
 */
module Base {

  /** Rust `u8`, `u16`, `u32` and `u64` are bit-vectors of the same width. */
  type Byte = bv8
  type U16 = bv16
  type U32 = bv32
  type U64 = bv64

  const I32_MIN: int := -0x8000_0000
  const I32_MAX: int := 0x7FFF_FFFF

  /** Rust `i32`: signed integers that fit in 32 bits. */
  type I32 = x: int | -0x8000_0000 <= x <= 0x7FFF_FFFF

  /**
   * Rust `f32` and `f64`, carried by their bit patterns.  The bindings only
   * copy floating-point values between the host and their callers, so the
   * model never computes with them.
   */
  datatype F32 = F32(bits: bv32)
  datatype F64 = F64(bits: bv64)

  datatype Option<T> = None | Some(value: T)

  /** `b as u8` for a Rust `bool`. */
  function ByteOfBool(b: bool): (r: Byte)
    ensures r <= 1
    ensures r != 0 <==> b
  {
    if b then 1 else 0
  }

  /** Adding one to a byte below 255 adds one to its value. */
  lemma ByteSucc(b: Byte)
    requires b as int < 255
    ensures (b + 1) as int == b as int + 1
  {
  }

  /** The byte whose value is `n`, counted up from 0. */
  function ByteOf(n: nat): (b: Byte)
    requires n < 256
    ensures b as int == n
  {
    if n == 0 then 0
    else
      ByteSucc(ByteOf(n - 1));
      ByteOf(n - 1) + 1
  }

  /** A byte widened to an integer lies in 0..255 and converts back to itself. */
  lemma ByteInt(b: Byte)
    ensures 0 <= b as int < 256
    ensures (b as int) as Byte == b
  {
  }

  /** Rust `i32` arithmetic that wraps around (a release build). */
  function WrapI32(x: int): (r: I32)
    ensures (r - x) % 0x1_0000_0000 == 0
    ensures I32_MIN <= x <= I32_MAX ==> r == x
  {
    (x - I32_MIN) % 0x1_0000_0000 + I32_MIN
  }

  /** Rust's integer `/`, which truncates toward zero, for a positive divisor. */
  function TDiv(a: int, b: int): (q: int)
    requires b > 0
    ensures a >= 0 ==> q == a / b
    ensures a < 0 ==> q == -((-a) / b)
  {
    if a >= 0 then a / b else -((-a) / b)
  }

  /** Rust's integer `%`: the remainder takes the sign of the dividend. */
  function TRem(a: int, b: int): (r: int)
    requires b > 0
    ensures a == b * TDiv(a, b) + r
    ensures a >= 0 ==> 0 <= r < b && r == a % b
    ensures a < 0 ==> -b < r <= 0 && r == -((-a) % b)
  {
    a - b * TDiv(a, b)
  }

  /** `filter_map` followed by `collect`: the present values, in order. */
  function Somes<T>(xs: seq<Option<T>>): (r: seq<T>)
    ensures |r| <= |xs|
    ensures (forall i | 0 <= i < |xs| :: xs[i].Some?) ==> |r| == |xs|
    ensures |r| == |xs| ==> forall i | 0 <= i < |xs| :: xs[i].Some?
  {
    if xs == [] then []
    else if xs[0].Some? then [xs[0].value] + Somes(xs[1..])
    else Somes(xs[1..])
  }

  /** Filtering a concatenation filters the parts one after the other. */
  lemma {:induction false} SomesAppend<T>(xs: seq<Option<T>>, ys: seq<Option<T>>)
    ensures Somes(xs + ys) == Somes(xs) + Somes(ys)
  {
    if xs == [] {
      assert xs + ys == ys;
    } else {
      assert (xs + ys)[1..] == xs[1..] + ys;
      SomesAppend(xs[1..], ys);
    }
  }

  /**
   * Order is kept: the value present at index `i` lands right after the
   * values present before `i`.
   */
  lemma SomesRank<T>(xs: seq<Option<T>>, i: nat)
    requires i < |xs| && xs[i].Some?
    ensures |Somes(xs[..i])| < |Somes(xs)|
    ensures Somes(xs)[|Somes(xs[..i])|] == xs[i].value
  {
    assert xs == xs[..i] + [xs[i]] + xs[i + 1..];
    SomesAppend(xs[..i] + [xs[i]], xs[i + 1..]);
    SomesAppend(xs[..i], [xs[i]]);
  }

  /** Every value kept was present in the input. */
  lemma {:induction false} SomesFrom<T>(xs: seq<Option<T>>, v: T)
    requires v in Somes(xs)
    ensures Some(v) in xs
  {
    if xs[0].Some? && v == xs[0].value {
    } else {
      SomesFrom(xs[1..], v);
    }
  }
}
