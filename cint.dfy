/**
 * The C representations the library's state is built from: 32-bit signed
 * and unsigned integers, the conversion between them, and NUL-terminated
 * strings that may be null.
 */
module CInt {

  const UINT32_MODULUS: int := 0x1_0000_0000
  const UINT32_MAX: int := 0xffff_ffff

  /** C `int` on the supported platforms: 32 bits, two's complement. */
  type int32 = x: int | -0x8000_0000 <= x < 0x8000_0000

  /** C `unsigned int`. */
  type uint32 = x: int | 0 <= x < 0x1_0000_0000

  /** The cast `(unsigned int)x`: reduction modulo 2^32. */
  function ToUnsigned(x: int32): (r: uint32)
    ensures 0 <= x ==> r == x
    ensures x < 0 ==> r == x + UINT32_MODULUS
  {
    x % UINT32_MODULUS
  }

  /** `++n` on an `unsigned int`: wraps from UINT32_MAX to 0. */
  function Increment(n: uint32): (r: uint32)
    ensures n < UINT32_MAX ==> r == n + 1
    ensures n == UINT32_MAX ==> r == 0
  {
    (n + 1) % UINT32_MODULUS
  }

  /**
   * A `const char *`: either NULL or a pointer to the characters `text`
   * followed by the terminating NUL.
   */
  datatype CString = Null | Str(text: string)

  /** The pointer addresses a properly terminated string: no NUL before the end. */
  predicate Terminated(s: CString)
  {
    s.Str? ==> forall i :: 0 <= i < |s.text| ==> s.text[i] != '\0'
  }

  /** `s[i]` for a non-null string, reading the terminator at `i == |text|`. */
  function CharAt(s: CString, i: nat): (c: char)
    requires s.Str? && i <= |s.text|
    ensures i == |s.text| ==> c == '\0'
    ensures Terminated(s) ==> (c == '\0' <==> i == |s.text|)
  {
    if i < |s.text| then s.text[i] else '\0'
  }
}
