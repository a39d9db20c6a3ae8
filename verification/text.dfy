/**
 * The string operations the scripts rely on: `str(int)` for URLs and
 * messages, `str.lower()` for header names, the substring test `x in s`
 * and `str.strip()`.
 */
module Text {
  import opened Wrappers

  predicate IsDigit(c: char) {
    '0' <= c <= '9'
  }

  function DigitChar(d: nat): (c: char)
    requires d < 10
    ensures IsDigit(c) && c as int - '0' as int == d
  {
    ('0' as int + d) as char
  }

  /** Decimal digits of `n`, most significant first, with no leading zero. */
  function NatToStr(n: nat): (s: string)
    ensures |s| >= 1
    ensures forall k :: 0 <= k < |s| ==> IsDigit(s[k])
    ensures |s| > 1 ==> s[0] != '0'
    decreases n
  {
    if n < 10 then [DigitChar(n)] else NatToStr(n / 10) + [DigitChar(n % 10)]
  }

  /** Python's `str(n)` for an int. */
  function IntToStr(n: int): (s: string)
    ensures |s| >= 1
    ensures s[0] == '-' <==> n < 0
  {
    if n < 0 then "-" + NatToStr(-n) else NatToStr(n)
  }

  /** The number a non-empty run of decimal digits denotes. */
  function DigitsValue(s: string): nat
    requires forall k :: 0 <= k < |s| ==> IsDigit(s[k])
  {
    if s == [] then 0
    else
      assert IsDigit(s[|s| - 1]);
      DigitsValue(s[..|s| - 1]) * 10 + (s[|s| - 1] as int - '0' as int)
  }

  /** Reads back an optional minus sign followed by at least one digit. */
  function ParseInt(s: string): Option<int> {
    if |s| >= 1 && s[0] == '-' then
      var digits := s[1..];
      if digits != [] && forall k :: 0 <= k < |digits| ==> IsDigit(digits[k])
      then Some(0 - DigitsValue(digits) as int) else None
    else if s != [] && forall k :: 0 <= k < |s| ==> IsDigit(s[k])
    then Some(DigitsValue(s)) else None
  }

  lemma {:induction false} NatToStrValue(n: nat)
    ensures DigitsValue(NatToStr(n)) == n
    decreases n
  {
    if n >= 10 {
      var s := NatToStr(n);
      NatToStrValue(n / 10);
      assert s[..|s| - 1] == NatToStr(n / 10);
    }
  }

  /** `str(n)` can be read back: distinct ids give distinct strings. */
  lemma IntToStrRoundTrip(n: int)
    ensures ParseInt(IntToStr(n)) == Some(n)
  {
    if n < 0 {
      NatToStrValue(-n);
      assert IntToStr(n)[1..] == NatToStr(-n);
    } else {
      NatToStrValue(n);
    }
  }

  /** `c.lower()` on the ASCII letters; every other character is kept. */
  function LowerChar(c: char): char {
    if 'A' <= c <= 'Z' then (c as int + 32) as char else c
  }

  /** Python's `s.lower()`, restricted to ASCII case mapping. */
  function Lower(s: string): (r: string)
    ensures |r| == |s|
    ensures forall k :: 0 <= k < |s| ==> r[k] == LowerChar(s[k])
    ensures forall k :: 0 <= k < |r| ==> !('A' <= r[k] <= 'Z')
  {
    seq(|s|, k requires 0 <= k < |s| => LowerChar(s[k]))
  }

  lemma LowerIdempotent(s: string)
    ensures Lower(Lower(s)) == Lower(s)
  {
  }

  /** `needle` occurs in `hay` starting at position `i`. */
  predicate OccursAt(needle: string, hay: string, i: nat) {
    i + |needle| <= |hay| && hay[i..i + |needle|] == needle
  }

  /** Python's `needle in hay` for strings. */
  function Contains(needle: string, hay: string): (r: bool)
    ensures r <==> exists i: nat :: OccursAt(needle, hay, i)
    decreases |hay|
  {
    if |hay| < |needle| then
      assert forall i: nat :: !OccursAt(needle, hay, i);
      false
    else if hay[..|needle|] == needle then
      assert OccursAt(needle, hay, 0);
      true
    else
      var rest := Contains(needle, hay[1..]);
      assert forall i: nat :: OccursAt(needle, hay[1..], i) <==> OccursAt(needle, hay, i + 1) by {
        forall i: nat ensures OccursAt(needle, hay[1..], i) <==> OccursAt(needle, hay, i + 1) {
          if i + 1 + |needle| <= |hay| {
            assert hay[1..][i..i + |needle|] == hay[i + 1..i + 1 + |needle|];
          }
        }
      }
      assert !OccursAt(needle, hay, 0);
      assert (exists i: nat :: OccursAt(needle, hay, i)) ==> exists i: nat :: OccursAt(needle, hay[1..], i) by {
        if exists i: nat :: OccursAt(needle, hay, i) {
          var i: nat :| OccursAt(needle, hay, i);
          assert i != 0;
          assert OccursAt(needle, hay[1..], i - 1);
        }
      }
      rest
  }

  /**
   * The characters Python's `str.strip()` removes, those `str.isspace()`
   * accepts: tab to carriage return, the four information separators, space,
   * next-line, no-break space and the Unicode space separators.
   */
  predicate IsSpace(c: char) {
    var n := c as int;
    || 9 <= n <= 13 || 28 <= n <= 32
    || n == 0x85 || n == 0xA0 || n == 0x1680 || 0x2000 <= n <= 0x200A
    || n == 0x2028 || n == 0x2029 || n == 0x202F || n == 0x205F || n == 0x3000
  }

  /** `s.lstrip()`: the suffix of `s` left after its leading whitespace. */
  function StripLeft(s: string): (r: string)
    ensures |r| <= |s| && r == s[|s| - |r|..]
    ensures forall k :: 0 <= k < |s| - |r| ==> IsSpace(s[k])
    ensures r == [] || !IsSpace(r[0])
    decreases |s|
  {
    if s != [] && IsSpace(s[0]) then StripLeft(s[1..]) else s
  }

  /** `s.rstrip()`: the prefix of `s` left before its trailing whitespace. */
  function StripRight(s: string): (r: string)
    ensures |r| <= |s| && r == s[..|r|]
    ensures forall k :: |r| <= k < |s| ==> IsSpace(s[k])
    ensures r == [] || !IsSpace(r[|r| - 1])
    decreases |s|
  {
    if s != [] && IsSpace(s[|s| - 1]) then StripRight(s[..|s| - 1]) else s
  }

  /** Python's `s.strip()`. */
  function Strip(s: string): (r: string)
    ensures r == [] || (!IsSpace(r[0]) && !IsSpace(r[|r| - 1]))
  {
    StripRight(StripLeft(s))
  }

  /** A string with no whitespace at either end is its own strip. */
  lemma {:induction false} StripUnchanged(s: string)
    requires s == [] || (!IsSpace(s[0]) && !IsSpace(s[|s| - 1]))
    ensures Strip(s) == s
  {
  }

  /** Stripping twice is stripping once. */
  lemma StripIdempotent(s: string)
    ensures Strip(Strip(s)) == Strip(s)
  {
    StripUnchanged(Strip(s));
  }

  /**
   * `s.strip()` is the middle of `s`: everything cut from either end is
   * whitespace.
   */
  lemma StripIsMiddle(s: string)
    ensures exists i: nat, j: nat :: i <= j <= |s| && Strip(s) == s[i..j]
                                     && (forall k :: 0 <= k < i ==> IsSpace(s[k]))
                                     && (forall k :: j <= k < |s| ==> IsSpace(s[k]))
  {
    var l := StripLeft(s);
    var i := |s| - |l|;
    var r := StripRight(l);
    var j := i + |r|;
    assert Strip(s) == s[i..j];
    forall k | j <= k < |s| ensures IsSpace(s[k]) {
      assert s[k] == l[k - i];
    }
  }
}
