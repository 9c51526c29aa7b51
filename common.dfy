/** Values and JavaScript semantics shared by the whole model: optional values,
    the outcome of a call into an external system, truthiness, decimal
    rendering, substring search and the 32-bit integer conversion. */
module Common {

  /** `T | null`, `T | undefined` and optional properties. */
  datatype Option<+T> = None | Some(value: T)

  /** What a caught JavaScript exception exposes to the code that inspects it:
      its `code` and `name` properties, when present. */
  datatype JsError = JsError(code: Option<string>, name: Option<string>)

  /** The outcome of one awaited call into an external system. */
  datatype Attempt = Succeeds | Throws(error: JsError)

  /** An observable that emits one value and completes, or errors. */
  datatype Lookup<+T> = Emits(value: T) | Fails

  /** Truthiness of a string: only the empty string is falsy. */
  predicate Truthy(s: string) { s != "" }

  /** Truthiness of an optional string property. */
  predicate OptTruthy(o: Option<string>) { o.Some? && o.value != "" }

  /** Truthiness of an optional numeric property: absent and 0 are falsy. */
  predicate IdTruthy(o: Option<int>) { o.Some? && o.value != 0 }

  predicate IsDigit(c: char) { '0' <= c <= '9' }

  predicate AllDigits(s: string) { forall i :: 0 <= i < |s| ==> IsDigit(s[i]) }

  function DigitChar(d: nat): (c: char)
    requires d < 10
    ensures IsDigit(c) && c as int - '0' as int == d
  {
    ('0' as int + d) as char
  }

  /** `String(n)` for a non-negative integer: its decimal digits, no leading zeros. */
  function NatToString(n: nat): (s: string)
    ensures |s| > 0 && AllDigits(s)
    ensures (|s| == 1) == (n < 10)
    ensures n >= 10 ==> s[0] != '0'
  {
    if n < 10 then [DigitChar(n)] else NatToString(n / 10) + [DigitChar(n % 10)]
  }

  /** `String(i)` for any integer: a minus sign before the digits when negative. */
  function IntToString(i: int): string
  {
    if i < 0 then "-" + NatToString(-i) else NatToString(i)
  }

  /** The number a string of decimal digits denotes. */
  function DigitsToInt(s: string): int
  {
    if s == [] then 0 else DigitsToInt(s[..|s| - 1]) * 10 + (s[|s| - 1] as int - '0' as int)
  }

  /** Reading back the decimal digits of n gives n. */
  lemma {:induction false} DigitsRoundTrip(n: nat)
    ensures DigitsToInt(NatToString(n)) == n
  {
    var s := NatToString(n);
    if n < 10 {
      assert s[..|s| - 1] == [];
    } else {
      assert s[..|s| - 1] == NatToString(n / 10);
      DigitsRoundTrip(n / 10);
    }
  }

  /** `s.padStart(2, '0')`. */
  function PadStart2(s: string): (r: string)
    ensures |s| >= 2 ==> r == s
    ensures |s| < 2 ==> |r| == 2 && r[2 - |s|..] == s
    ensures forall i :: 0 <= i < 2 - |s| ==> r[i] == '0'
  {
    if |s| >= 2 then s else if |s| == 1 then "0" + s else "00"
  }

  /** sub occurs in s starting at index i. */
  predicate OccursAt(s: string, sub: string, i: int)
  {
    0 <= i && i + |sub| <= |s| && s[i..i + |sub|] == sub
  }

  /** `s.includes(sub)`. */
  function Contains(s: string, sub: string): (b: bool)
    ensures b <==> exists i :: OccursAt(s, sub, i)
    decreases |s|
  {
    if |sub| > |s| then false
    else if s[..|sub|] == sub then assert OccursAt(s, sub, 0); true
    else
      var b := Contains(s[1..], sub);
      assert forall i :: OccursAt(s[1..], sub, i) <==> OccursAt(s, sub, i + 1);
      assert !OccursAt(s, sub, 0);
      assert forall i :: OccursAt(s, sub, i) ==> i >= 1 && OccursAt(s[1..], sub, i - 1);
      b
  }

  const TwoTo31: int := 0x8000_0000
  const TwoTo32: int := 0x1_0000_0000

  predicate IsInt32(x: int) { -TwoTo31 <= x < TwoTo31 }

  /** ECMAScript ToInt32 on an integral number: the signed 32-bit value
      congruent to x modulo 2^32 (what `x | 0` and `<<` produce). */
  function ToInt32(x: int): (r: int)
    ensures IsInt32(r)
    ensures (r - x) % TwoTo32 == 0
  {
    (x + TwoTo31) % TwoTo32 - TwoTo31
  }

  /** ToInt32 depends only on the value modulo 2^32. */
  lemma ToInt32Congruent(x: int, y: int)
    requires (x - y) % TwoTo32 == 0
    ensures ToInt32(x) == ToInt32(y)
  {
    var k := (x - y) / TwoTo32;
    assert x == y + k * TwoTo32;
    assert (x + TwoTo31) % TwoTo32 == (y + TwoTo31) % TwoTo32;
  }

  /** ToInt32 keeps a value that already fits in 32 bits. */
  lemma ToInt32OfInt32(x: int)
    requires IsInt32(x)
    ensures ToInt32(x) == x
  {
  }
}
