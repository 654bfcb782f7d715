/**
 * The pieces of Go's own semantics that the service relies on: bytes,
 * the 16-bit integer that carries token lifetimes, error values, the
 * string-to-bytes conversion and `%d` formatting.
 */
module GoBase {
  import opened Wrappers

  /** Go's `byte`. */
  type byte = bv8

  /** Go's `int16`, the type of `ExpiresIn` in the token payload and the token table. */
  newtype int16 = x: int | -0x8000 <= x < 0x8000

  /** `a - b` on Go `int16` operands: the exact difference, wrapped around to 16 bits. */
  function Int16Sub(a: int16, b: int16): (r: int16)
    ensures -0x8000 <= a as int - b as int < 0x8000 ==> r as int == a as int - b as int
    ensures a as int - b as int < -0x8000 ==> r as int == a as int - b as int + 0x1_0000
    ensures a as int - b as int >= 0x8000 ==> r as int == a as int - b as int - 0x1_0000
  {
    ((a as int - b as int + 0x8000) % 0x1_0000 - 0x8000) as int16
  }

  /**
   * A Go `error`: its own text and, when it was made by `fmt.Errorf` with `%w`,
   * the error it wraps.
   */
  datatype GoError = GoError(text: string, cause: Option<GoError>)

  /** `errors.New(text)`, or `fmt.Errorf` without `%w`. */
  function NewError(text: string): GoError
  {
    GoError(text, None)
  }

  /** `fmt.Errorf(prefix + ": %w", cause)`. */
  function Wrap(prefix: string, cause: GoError): GoError
  {
    GoError(prefix, Some(cause))
  }

  /** `err.Error()`: the error's own text, then ": " and the text of what it wraps. */
  function ErrorString(e: GoError): string
  {
    match e.cause
    case None => e.text
    case Some(inner) => e.text + ": " + ErrorString(inner)
  }

  /** The UTF-8 encoding of one Unicode scalar value. */
  function Utf8Char(c: char): (r: seq<byte>)
    ensures 1 <= |r| <= 4
  {
    var v := c as int;
    if v < 0x80 then
      [v as byte]
    else if v < 0x800 then
      [(0xC0 + v / 0x40) as byte, (0x80 + v % 0x40) as byte]
    else if v < 0x1_0000 then
      [(0xE0 + v / 0x1000) as byte, (0x80 + (v / 0x40) % 0x40) as byte, (0x80 + v % 0x40) as byte]
    else
      [(0xF0 + v / 0x4_0000) as byte, (0x80 + (v / 0x1000) % 0x40) as byte,
       (0x80 + (v / 0x40) % 0x40) as byte, (0x80 + v % 0x40) as byte]
  }

  /** Go's `[]byte(s)`: a Go string holds the UTF-8 encoding of its text. */
  function Utf8(s: string): (r: seq<byte>)
    ensures |s| <= |r| <= 4 * |s|
  {
    if s == [] then [] else Utf8Char(s[0]) + Utf8(s[1..])
  }

  lemma {:induction false} Utf8Append(s: string, t: string)
    ensures Utf8(s + t) == Utf8(s) + Utf8(t)
  {
    if s == [] {
      assert s + t == t;
    } else {
      assert (s + t)[0] == s[0];
      assert (s + t)[1..] == s[1..] + t;
      Utf8Append(s[1..], t);
    }
  }

  /** `%d`: decimal digits, with a leading '-' for negative numbers. */
  function DecimalString(n: int): string
  {
    if n < 0 then "-" + Digits(-n) else Digits(n)
  }

  function Digits(n: nat): string
  {
    if n < 10 then [('0' as int + n) as char] else Digits(n / 10) + [('0' as int + n % 10) as char]
  }
}
