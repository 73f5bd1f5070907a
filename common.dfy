/** Values shared by every part of the loader model: optional values, the outcome of a
    C++ call that may throw, C-string scanning and decimal rendering. */
module Common {

  /** A pointer that may be NULL, or a lookup that may find nothing. */
  datatype Option<+T> = None | Some(value: T)

  /** The outcome of a C++ call that either returns a value or throws a std::exception
      carrying the message `what`. */
  datatype Throws<+T> = Returns(value: T) | Throw(what: string)

  const Nul: char := '\0'

  /** Position of the first `c` in `s`, or `|s|` when `s` holds none. */
  function IndexOf(s: string, c: char): (i: nat)
    ensures i <= |s|
    ensures forall j :: 0 <= j < i ==> s[j] != c
    ensures i < |s| ==> s[i] == c
    ensures i == |s| <==> c !in s
  {
    if s == [] then 0
    else if s[0] == c then 0
    else 1 + IndexOf(s[1..], c)
  }

  /** The first `c` in a string that starts with `c`-free text followed by `c` is the
      one right after that text. */
  lemma IndexOfAfterText(text: string, c: char, rest: string)
    requires c !in text
    ensures IndexOf(text + [c] + rest, c) == |text|
  {
    var s := text + [c] + rest;
    assert s[|text|] == c;
  }

  /** The text a C library function sees in a character buffer: everything before the
      first NUL (all of it when there is none). */
  function UntilNul(s: string): (t: string)
    ensures Nul !in t
    ensures |t| <= |s| && t == s[..|t|]
    ensures |t| < |s| ==> s[|t|] == Nul
    ensures Nul !in s ==> t == s
  {
    s[..IndexOf(s, Nul)]
  }

  /** A NUL-terminated string reads back as the text before its terminator, whatever
      follows the terminator. */
  lemma UntilNulOfTerminated(text: string, rest: string)
    requires Nul !in text
    ensures UntilNul(text + [Nul] + rest) == text
  {
    IndexOfAfterText(text, Nul, rest);
    assert (text + [Nul] + rest)[..|text|] == text;
  }

  /** A static conversion of a pointer-sized integer to a 32-bit `int`: the value modulo
      2^32, read in two's complement. */
  function ToInt32(x: int): (r: int)
    ensures -0x8000_0000 <= r < 0x8000_0000
    ensures -0x8000_0000 <= x < 0x8000_0000 ==> r == x
    ensures (x - r) % 0x1_0000_0000 == 0
  {
    (x + 0x8000_0000) % 0x1_0000_0000 - 0x8000_0000
  }

  function DigitChar(d: nat): (c: char)
    requires d < 10
  {
    "0123456789"[d]
  }

  function DigitValue(c: char): (d: int)
  {
    c as int - '0' as int
  }

  predicate IsDigit(c: char)
  {
    '0' <= c <= '9'
  }

  /** What `std::stringstream << n` writes for a non-negative integer in decimal mode. */
  function NatToDecimal(n: nat): (s: string)
    ensures |s| > 0
    ensures forall i :: 0 <= i < |s| ==> IsDigit(s[i])
    ensures |s| > 1 ==> s[0] != '0'
    decreases n
  {
    if n < 10 then [DigitChar(n)]
    else NatToDecimal(n / 10) + [DigitChar(n % 10)]
  }

  /** What `std::stringstream << n` writes for any integer in decimal mode. */
  function IntToDecimal(n: int): (s: string)
  {
    if n < 0 then "-" + NatToDecimal(-n) else NatToDecimal(n)
  }

  /** The value a string of decimal digits denotes. */
  function DecimalValue(s: string): int
  {
    if s == [] then 0
    else 10 * DecimalValue(s[..|s| - 1]) + DigitValue(s[|s| - 1])
  }

  /** Reading back the rendered digits gives the number that was rendered. */
  lemma {:induction false} DecimalRoundTrip(n: nat)
    ensures DecimalValue(NatToDecimal(n)) == n
  {
    var s := NatToDecimal(n);
    if n < 10 {
      assert s[..|s| - 1] == [];
    } else {
      assert s[..|s| - 1] == NatToDecimal(n / 10);
      DecimalRoundTrip(n / 10);
    }
  }
}
