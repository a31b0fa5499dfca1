/** Optional values, for the places where the Java code uses null. */
module Wrappers {
  datatype Option<+T> = None | Some(value: T)
}

/**
 * The handful of java.lang.String operations the app relies on:
 * toLowerCase, contains and the decimal rendering done by
 * String.format("%d") and StringBuilder.append(int).
 */
module Text {

  /** Lower-cases one character; only the ASCII letters A..Z change. */
  function LowerChar(c: char): char
  {
    if 'A' <= c <= 'Z' then (c as int + 32) as char else c
  }

  predicate IsUpper(c: char) { 'A' <= c <= 'Z' }

  /** String.toLowerCase, restricted to ASCII case folding. */
  function Lower(s: string): (r: string)
    ensures |r| == |s|
    ensures forall i :: 0 <= i < |s| ==> r[i] == LowerChar(s[i])
    ensures forall i :: 0 <= i < |r| ==> !IsUpper(r[i])
  {
    if s == [] then [] else [LowerChar(s[0])] + Lower(s[1..])
  }

  /** Lower-casing twice is lower-casing once. */
  lemma LowerIdempotent(s: string)
    ensures Lower(Lower(s)) == Lower(s)
  {
    assert forall i :: 0 <= i < |s| ==> Lower(Lower(s))[i] == Lower(s)[i];
  }

  /** A string without upper-case letters is its own lower-case form. */
  lemma LowerOfLowerCase(s: string)
    requires forall i :: 0 <= i < |s| ==> !IsUpper(s[i])
    ensures Lower(s) == s
  {
    assert forall i :: 0 <= i < |s| ==> Lower(s)[i] == s[i];
  }

  predicate StartsWith(s: string, prefix: string)
  {
    |prefix| <= |s| && s[..|prefix|] == prefix
  }

  /** `part` occurs in `s` starting at index `i`. */
  ghost predicate OccursAt(s: string, part: string, i: int)
  {
    0 <= i && i + |part| <= |s| && s[i..i + |part|] == part
  }

  /**
   * String.contains: true iff `part` occurs somewhere in `s`.
   * The empty string occurs in every string.
   */
  function Contains(s: string, part: string): (r: bool)
    ensures r <==> exists i :: OccursAt(s, part, i)
    decreases |s|
  {
    if StartsWith(s, part) then
      assert OccursAt(s, part, 0);
      true
    else if |s| == 0 then
      false
    else
      assert forall i :: OccursAt(s[1..], part, i) ==> OccursAt(s, part, i + 1) by {
        forall i | OccursAt(s[1..], part, i) ensures OccursAt(s, part, i + 1) {
          assert s[1..][i..i + |part|] == s[i + 1..i + 1 + |part|];
        }
      }
      assert forall i :: OccursAt(s, part, i) ==> i > 0 && OccursAt(s[1..], part, i - 1) by {
        forall i | OccursAt(s, part, i) ensures i > 0 && OccursAt(s[1..], part, i - 1) {
          assert s[1..][i - 1..i - 1 + |part|] == s[i..i + |part|];
        }
      }
      Contains(s[1..], part)
  }

  predicate IsDigit(c: char) { '0' <= c <= '9' }

  function DigitChar(d: nat): (c: char)
    requires d < 10
    ensures IsDigit(c) && c as int - '0' as int == d
  {
    ('0' as int + d) as char
  }

  /** The decimal digits of `n`, most significant first, without leading zeros. */
  function NatToString(n: nat): (r: string)
    ensures |r| >= 1
    ensures forall i :: 0 <= i < |r| ==> IsDigit(r[i])
    ensures r[0] == '0' ==> n == 0
    decreases n
  {
    if n < 10 then [DigitChar(n)] else NatToString(n / 10) + [DigitChar(n % 10)]
  }

  /** The number a string of decimal digits denotes. */
  function DigitsValue(s: string): nat
    requires forall i :: 0 <= i < |s| ==> IsDigit(s[i])
  {
    if s == [] then 0
    else
      assert IsDigit(s[|s| - 1]);
      DigitsValue(s[..|s| - 1]) * 10 + (s[|s| - 1] as int - '0' as int)
  }

  /** Reading the rendered digits back gives the number: the rendering loses nothing. */
  lemma {:induction false} DecimalRoundTrip(n: nat)
    ensures DigitsValue(NatToString(n)) == n
    decreases n
  {
    if n >= 10 {
      DecimalRoundTrip(n / 10);
      var r := NatToString(n);
      assert r[..|r| - 1] == NatToString(n / 10);
    }
  }

  /** Integer.toString: a minus sign before the digits of a negative number. */
  function IntToString(i: int): (r: string)
    ensures i >= 0 ==> r == NatToString(i)
    ensures i < 0 ==> r == "-" + NatToString(-i)
  {
    if i < 0 then "-" + NatToString(-i) else NatToString(i)
  }

  /** Different numbers are rendered differently. */
  lemma IntToStringInjective(a: int, b: int)
    requires IntToString(a) == IntToString(b)
    ensures a == b
  {
    if a >= 0 && b >= 0 {
      DecimalRoundTrip(a);
      DecimalRoundTrip(b);
    } else if a < 0 && b < 0 {
      assert NatToString(-a) == IntToString(a)[1..];
      DecimalRoundTrip(-a);
      DecimalRoundTrip(-b);
    }
  }

  /**
   * Two texts that agree up to a field which never holds the delimiter
   * that follows it carry the same field.
   */
  lemma FieldBeforeDelimiter(p: string, a: string, b: string, d: char, x: string, y: string)
    requires d !in a && d !in b
    requires p + a + [d] + x == p + b + [d] + y
    ensures a == b
  {
    var l, r := p + a + [d] + x, p + b + [d] + y;
    assert forall k :: 0 <= k < |a| ==> l[|p| + k] == a[k] != d;
    assert forall k :: 0 <= k < |b| ==> r[|p| + k] == b[k] != d;
    assert l[|p| + |a|] == d && r[|p| + |b|] == d;
    assert |a| == |b|;
    assert a == l[|p|..|p| + |a|];
    assert b == r[|p|..|p| + |b|];
  }
}

/** The android.graphics.Color values the screens use, as ARGB components. */
module Graphics {
  datatype Color = Argb(alpha: int, red: int, green: int, blue: int)

  /** Color.rgb: an opaque colour. */
  function Rgb(red: int, green: int, blue: int): Color
  {
    Argb(255, red, green, blue)
  }

  const GREEN: Color := Argb(255, 0, 255, 0)
  const YELLOW: Color := Argb(255, 255, 255, 0)
  const RED: Color := Argb(255, 255, 0, 0)
  /** Not a platform constant: the screens write Color.rgb(255, 165, 0). */
  const ORANGE: Color := Rgb(255, 165, 0)
}
