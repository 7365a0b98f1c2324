/** The parts of the Arduino core's `String` class that the firmware's results
    depend on: rendering an unsigned number in base 10 or 16 (`concat(int)`,
    `String(v, HEX)`), `substring` and `indexOf`. Text is `seq<char>`; NUL
    characters inside a string are not modelled. */
module ArduinoString {

  import opened MachineInts

  /** The digit character for `d` in bases up to 16; lower case, as `utoa` writes. */
  function DigitChar(d: nat): (c: char)
    requires d < 16
  {
    if d < 10 then ('0' as int + d) as char else ('a' as int + d - 10) as char
  }

  predicate IsDigitChar(c: char) {
    '0' <= c <= '9' || 'a' <= c <= 'f'
  }

  /** The value of a digit character; the inverse of `DigitChar`. */
  function DigitValue(c: char): (d: nat)
    ensures d < 16
  {
    if '0' <= c <= '9' then (c - '0') as nat
    else if 'a' <= c <= 'f' then (c - 'a') as nat + 10
    else 0
  }

  lemma DigitCharValue(d: nat)
    requires d < 16
    ensures IsDigitChar(DigitChar(d)) && DigitValue(DigitChar(d)) == d
  {
  }

  /** `n` written in `base` (10 or 16, the two the firmware uses) with the
      most significant digit first and no leading zeros (`0` is written "0"). */
  function Digits(n: nat, base: nat): (s: string)
    requires base == 10 || base == 16
    ensures 1 <= |s|
    decreases n
  {
    if n < base then [DigitChar(n)] else Digits(n / base, base) + [DigitChar(n % base)]
  }

  /** The value of a digit string, most significant digit first: the reading
      direction of `Digits`. */
  function ParseDigits(s: string, base: nat): nat
    decreases |s|
  {
    if s == [] then 0 else ParseDigits(s[..|s| - 1], base) * base + DigitValue(s[|s| - 1])
  }

  /** Reading back what `Digits` wrote yields the number again. */
  lemma {:induction false} ParseDigitsOfDigits(n: nat, base: nat)
    requires base == 10 || base == 16
    ensures ParseDigits(Digits(n, base), base) == n
    decreases n
  {
    if n < base {
      DigitCharValue(n);
      assert [DigitChar(n)][..0] == [];
    } else {
      var front := Digits(n / base, base);
      var s := front + [DigitChar(n % base)];
      assert s[..|s| - 1] == front;
      DigitCharValue(n % base);
      ParseDigitsOfDigits(n / base, base);
    }
  }

  /** Different numbers are written differently. */
  lemma DigitsInjective(a: nat, b: nat, base: nat)
    requires base == 10 || base == 16
    requires Digits(a, base) == Digits(b, base)
    ensures a == b
  {
    ParseDigitsOfDigits(a, base);
    ParseDigitsOfDigits(b, base);
  }

  /** `String::concat(int)` for a non-negative value. */
  function DecimalText(n: nat): string {
    Digits(n, 10)
  }

  /** `String(value, HEX)`: unpadded lower-case hexadecimal. */
  function HexText(n: nat): string {
    Digits(n, 16)
  }

  /** `String::substring(left, right)` of the Arduino AVR core: the bounds are
      swapped when `left > right`, a `left` at or past the end gives "", and a
      `right` past the end is clamped to the length. */
  function Substring(s: string, left: uint16, right: uint16): (r: string)
    ensures |r| <= |s|
  {
    var lo := if left > right then right else left;
    var hi := if left > right then left else right;
    if lo >= |s| then "" else s[lo..if hi > |s| then |s| else hi]
  }

  ghost predicate OccursAt(s: string, pat: string, i: int) {
    0 <= i && i + |pat| <= |s| && s[i..i + |pat|] == pat
  }

  /** First position at or after `from` where `pat` occurs in `s`, or -1. */
  function FindFrom(s: string, pat: string, from: nat): (r: int)
    ensures r == -1 || (from <= r && OccursAt(s, pat, r))
    ensures forall j :: from <= j && (r == -1 || j < r) ==> !OccursAt(s, pat, j)
    decreases |s| - from
  {
    if from + |pat| > |s| then -1
    else if s[from..from + |pat|] == pat then from
    else FindFrom(s, pat, from + 1)
  }

  /** `String::indexOf(pat)`: -1 for an empty string (the search starts at
      index 0, which must lie inside the string), else the first occurrence. */
  function IndexOf(s: string, pat: string): (r: int)
    ensures r == -1 <==> (|s| == 0 || forall j :: !OccursAt(s, pat, j))
    ensures r != -1 ==> OccursAt(s, pat, r) && forall j :: 0 <= j < r ==> !OccursAt(s, pat, j)
  {
    if |s| == 0 then -1 else FindFrom(s, pat, 0)
  }
}
