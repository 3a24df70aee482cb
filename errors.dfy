/**
 * The host's error-code taxonomy (`VcmpError`) and the result type every
 * fallible call of the bindings returns.
 */
module Errors {
  import opened Base

  datatype VcmpError =
    | None
    | NoSuchEntity
    | BufferTooSmall
    | TooLargeInput
    | ArgumentOutOfBounds
    | NullArgument
    | PoolExhausted
    | InvalidName
    | RequestDenied
    | ForceSize
    | Unknown(code: I32)

  /** `VcmpResult<T>`: a value, or the error the host reported. */
  datatype VcmpResult<T> = Ok(value: T) | Err(error: VcmpError)

  /** The errors with a code of their own between 0 and 8, in declaration order. */
  const Numbered: seq<VcmpError> := [
    VcmpError.None, NoSuchEntity, BufferTooSmall, TooLargeInput, ArgumentOutOfBounds,
    NullArgument, PoolExhausted, InvalidName, RequestDenied
  ]

  /** Codes that name a variant of their own rather than `Unknown`. */
  predicate IsReservedCode(code: int) {
    0 <= code <= 8 || code == I32_MAX
  }

  /** `From<VcmpError> for i32`. */
  function ToCode(e: VcmpError): (c: I32)
    ensures e.Unknown? ==> c == e.code
    ensures !e.Unknown? ==> IsReservedCode(c)
    ensures 0 <= c <= 8 && !e.Unknown? ==> Numbered[c] == e
  {
    match e
    case None => 0
    case NoSuchEntity => 1
    case BufferTooSmall => 2
    case TooLargeInput => 3
    case ArgumentOutOfBounds => 4
    case NullArgument => 5
    case PoolExhausted => 6
    case InvalidName => 7
    case RequestDenied => 8
    case ForceSize => I32_MAX
    case Unknown(x) => x
  }

  /** `From<i32> for VcmpError`: total over every `i32`. */
  function FromCode(c: I32): (e: VcmpError)
    ensures ToCode(e) == c
    ensures 0 <= c <= 8 ==> e == Numbered[c]
    ensures e == ForceSize <==> c == I32_MAX
    ensures e.Unknown? <==> !IsReservedCode(c)
    ensures e.Unknown? ==> e.code == c
  {
    match c
    case 0 => VcmpError.None
    case 1 => NoSuchEntity
    case 2 => BufferTooSmall
    case 3 => TooLargeInput
    case 4 => ArgumentOutOfBounds
    case 5 => NullArgument
    case 6 => PoolExhausted
    case 7 => InvalidName
    case 8 => RequestDenied
    case _ => if c == I32_MAX then ForceSize else Unknown(c)
  }

  /**
   * Decoding an encoded error gives it back, except for an `Unknown` that
   * carries a reserved code: that one decodes to the named variant instead.
   */
  lemma FromCodeToCode(e: VcmpError)
    ensures FromCode(ToCode(e)) == e <==> !(e.Unknown? && IsReservedCode(e.code))
  {
  }

  /** Distinct codes decode to distinct errors. */
  lemma FromCodeInjective(c1: I32, c2: I32)
    requires FromCode(c1) == FromCode(c2)
    ensures c1 == c2
  {
    assert ToCode(FromCode(c1)) == c1;
  }

  /** The character of a decimal digit. */
  function DigitChar(d: nat): (ch: char)
    requires d < 10
    ensures '0' <= ch <= '9' && ch as int - '0' as int == d
  {
    ('0' as int + d) as char
  }

  predicate IsDigits(s: string) {
    forall i | 0 <= i < |s| :: '0' <= s[i] <= '9'
  }

  /** The number a string of decimal digits denotes. */
  function DigitsValue(s: string): nat
    requires IsDigits(s)
  {
    if s == [] then 0 else 10 * DigitsValue(s[..|s| - 1]) + (s[|s| - 1] as int - '0' as int)
  }

  /** Rust's `{}` formatting of a natural number: its shortest decimal digits. */
  function NatDecimal(n: nat): (s: string)
    ensures |s| > 0 && IsDigits(s)
    ensures DigitsValue(s) == n
    ensures s[0] == '0' ==> s == "0"
  {
    if n < 10 then
      [DigitChar(n)]
    else
      var s := NatDecimal(n / 10) + [DigitChar(n % 10)];
      assert s[..|s| - 1] == NatDecimal(n / 10);
      s
  }

  /** Rust's `{}` formatting of an `i32`: a minus sign for negatives, then the digits. */
  function IntDecimal(i: int): (s: string)
    ensures |s| > 0
    ensures s[0] == '-' <==> i < 0
    ensures i < 0 ==> IsDigits(s[1..]) && DigitsValue(s[1..]) == -i
    ensures i >= 0 ==> IsDigits(s) && DigitsValue(s) == i
  {
    if i < 0 then "-" + NatDecimal(-i) else NatDecimal(i)
  }

  const UnknownCodePrefix := "unknown error "

  /**
   * `Display for VcmpError`.  The host's messages are paraphrased; what the
   * model keeps is that every variant has a message and that the message of
   * `Unknown(c)` ends with the decimal text of `c`.
   */
  function Message(e: VcmpError): (s: string)
    ensures |s| > 0
    ensures e.Unknown? ==>
      |s| > |IntDecimal(e.code)| && s[|s| - |IntDecimal(e.code)|..] == IntDecimal(e.code)
  {
    match e
    case None => "no error"
    case NoSuchEntity => "no such entity"
    case BufferTooSmall => "buffer too small"
    case TooLargeInput => "input too large"
    case ArgumentOutOfBounds => "argument out of bounds"
    case NullArgument => "null argument"
    case PoolExhausted => "pool exhausted"
    case InvalidName => "invalid name"
    case RequestDenied => "request denied"
    case ForceSize => "force size"
    case Unknown(code) =>
      var digits := IntDecimal(code);
      assert (UnknownCodePrefix + digits)[|UnknownCodePrefix|..] == digits;
      UnknownCodePrefix + digits
  }
}
