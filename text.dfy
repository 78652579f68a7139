/** The string operations the pages and the login use: `toLowerCase`,
    `toUpperCase`, `includes`, and `Number.prototype.toString` on integers. */
module Text {

  function LowerChar(c: char): char {
    if 'A' <= c <= 'Z' then (c as int + 32) as char else c
  }

  /** `String.prototype.toLowerCase` on the ASCII letters; other characters
      are kept. */
  function ToLower(s: string): (r: string)
    ensures |r| == |s|
    ensures forall i :: 0 <= i < |s| ==> r[i] == LowerChar(s[i])
  {
    seq(|s|, i requires 0 <= i < |s| => LowerChar(s[i]))
  }

  /** `toUpperCase` on one character: the ASCII letters, and the two
      non-ASCII letters whose upper case is ASCII: dotless i (U+0131) becomes
      'I', long s (U+017F) becomes 'S'. */
  function UpperChar(c: char): char {
    if 'a' <= c <= 'z' then (c as int - 32) as char
    else if c == 'ı' then 'I'
    else if c == 'ſ' then 'S'
    else c
  }

  function ToUpper(s: string): (r: string)
    ensures |r| == |s|
    ensures forall i :: 0 <= i < |s| ==> r[i] == UpperChar(s[i])
  {
    seq(|s|, i requires 0 <= i < |s| => UpperChar(s[i]))
  }

  lemma UpperCharIdempotent(c: char)
    ensures UpperChar(UpperChar(c)) == UpperChar(c)
  {
  }

  /** Upper-casing twice is upper-casing once. */
  lemma ToUpperIdempotent(s: string)
    ensures ToUpper(ToUpper(s)) == ToUpper(s)
  {
    forall i | 0 <= i < |s|
      ensures ToUpper(ToUpper(s))[i] == ToUpper(s)[i]
    {
      UpperCharIdempotent(s[i]);
    }
  }

  /** `n` occurs in `h` starting at index `i`. */
  predicate OccursAt(h: string, n: string, i: int) {
    0 <= i && i + |n| <= |h| && h[i..i + |n|] == n
  }

  /** `h.includes(n)`: scans `h` for a position where `n` is a prefix; true
      exactly when `n` occurs somewhere in `h`. */
  function Contains(h: string, n: string): (b: bool)
    ensures b <==> exists i :: OccursAt(h, n, i)
    decreases |h|
  {
    if n <= h then
      assert OccursAt(h, n, 0);
      true
    else if |h| == 0 then
      false
    else
      ShiftOccurs(h, n);
      Contains(h[1..], n)
  }

  /** Past a position where `n` is not a prefix, `n` occurs in `h` exactly when
      it occurs in `h` without its first character. */
  lemma ShiftOccurs(h: string, n: string)
    requires |h| > 0 && !(n <= h)
    ensures (exists i :: OccursAt(h, n, i)) <==> (exists i :: OccursAt(h[1..], n, i))
  {
    forall i | OccursAt(h[1..], n, i) ensures OccursAt(h, n, i + 1) {
      assert h[1..][i..i + |n|] == h[i + 1..i + 1 + |n|];
    }
    forall i | OccursAt(h, n, i) ensures i > 0 && OccursAt(h[1..], n, i - 1) {
      if i > 0 {
        assert h[1..][i - 1..i - 1 + |n|] == h[i..i + |n|];
      }
    }
  }

  /** The empty search term occurs in every string. */
  lemma EmptyOccursEverywhere(h: string)
    ensures Contains(h, "")
  {
    assert OccursAt(h, "", 0);
  }

  function DigitChar(d: int): char
    requires 0 <= d < 10
  {
    ('0' as int + d) as char
  }

  /** The decimal digits of `n`, most significant first, without leading
      zeros. */
  function NatToString(n: nat): (s: string)
    ensures 1 <= |s|
    ensures forall i :: 0 <= i < |s| ==> '0' <= s[i] <= '9'
    ensures n > 0 ==> s[0] != '0'
  {
    if n < 10 then [DigitChar(n)] else NatToString(n / 10) + [DigitChar(n % 10)]
  }

  /** `n.toString()` for an integer `n`. */
  function IntToString(n: int): string {
    if n < 0 then "-" + NatToString(-n) else NatToString(n)
  }

  /** The number a string of decimal digits denotes. */
  function DigitsValue(s: string): nat
    requires forall i :: 0 <= i < |s| ==> '0' <= s[i] <= '9'
  {
    if s == [] then 0 else 10 * DigitsValue(s[..|s| - 1]) + (s[|s| - 1] as int - '0' as int)
  }

  /** Reading the digits back gives the number written. */
  lemma {:induction false} NatToStringRoundTrip(n: nat)
    ensures DigitsValue(NatToString(n)) == n
  {
    if n >= 10 {
      var s := NatToString(n);
      assert s[..|s| - 1] == NatToString(n / 10);
      NatToStringRoundTrip(n / 10);
    }
  }
}
