/**
 * The JavaScript string operations the identifier generator relies on:
 * the character classes it produces and checks, `Number.prototype.toString(36)`
 * on integers, `Array.prototype.toString` on an array of key names, and the
 * clamping rules of `String.prototype.substring` and `String.prototype.slice`.
 */
module JsText {

  function Min(a: int, b: int): int { if a <= b then a else b }
  function Max(a: int, b: int): int { if a <= b then b else a }

  /** `x` clamped into the range `lo..hi`. */
  function Clamp(x: int, lo: int, hi: int): (r: int)
    requires lo <= hi
    ensures lo <= r <= hi
    ensures lo <= x <= hi ==> r == x
  {
    if x < lo then lo else if hi < x then hi else x
  }

  predicate IsDecimalDigit(c: char) { '0' <= c <= '9' }
  predicate IsLowerLetter(c: char) { 'a' <= c <= 'z' }
  predicate IsHexDigit(c: char) { IsDecimalDigit(c) || 'a' <= c <= 'f' }

  /** The class `[0-9a-z]`: the digits of base 36. */
  predicate IsBase36Char(c: char) { IsDecimalDigit(c) || IsLowerLetter(c) }

  predicate AllBase36(s: string) { forall i :: 0 <= i < |s| ==> IsBase36Char(s[i]) }
  predicate AllHex(s: string) { forall i :: 0 <= i < |s| ==> IsHexDigit(s[i]) }

  /** The digit for `d` in base 36: `0`..`9`, then `a`..`z`. */
  function DigitChar(d: nat): (c: char)
    requires d < 36
    ensures IsBase36Char(c)
    ensures d < 10 <==> IsDecimalDigit(c)
  {
    if d < 10 then ('0' as int + d) as char else ('a' as int + d - 10) as char
  }

  /** The value of a base-36 digit. */
  function DigitValue(c: char): (d: nat)
    requires IsBase36Char(c)
    ensures d < 36
  {
    if IsDecimalDigit(c) then c as int - '0' as int else c as int - 'a' as int + 10
  }

  lemma DigitRoundTrip(d: nat)
    requires d < 36
    ensures DigitValue(DigitChar(d)) == d
  {
  }

  /**
   * `n.toString(36)` for a non-negative integer: most significant digit first,
   * no leading zero, `"0"` for zero.
   */
  function ToString36(n: nat): (s: string)
    ensures 0 < |s|
    ensures AllBase36(s)
    ensures |s| == 1 <==> n < 36
    ensures s[0] == '0' ==> n == 0
  {
    if n < 36 then [DigitChar(n)] else ToString36(n / 36) + [DigitChar(n % 36)]
  }

  /** Reads a string of base-36 digits back as a number (the inverse of `ToString36`). */
  function FromString36(s: string): nat
    requires AllBase36(s)
  {
    if |s| == 0 then 0 else 36 * FromString36(s[..|s| - 1]) + DigitValue(s[|s| - 1])
  }

  lemma {:induction false} ToString36RoundTrip(n: nat)
    ensures FromString36(ToString36(n)) == n
  {
    var s := ToString36(n);
    if n < 36 {
      DigitRoundTrip(n);
    } else {
      assert s[..|s| - 1] == ToString36(n / 36);
      ToString36RoundTrip(n / 36);
      DigitRoundTrip(n % 36);
    }
  }

  /** Distinct numbers render to distinct strings. */
  lemma ToString36Injective(m: nat, n: nat)
    requires ToString36(m) == ToString36(n)
    ensures m == n
  {
    ToString36RoundTrip(m);
    ToString36RoundTrip(n);
  }

  /** `n.toString(36)` for any integer: a minus sign in front of a negative one. */
  function IntToString36(n: int): (s: string)
    ensures 0 < |s|
    ensures s[0] == '-' <==> n < 0
  {
    if n < 0 then "-" + ToString36(-n) else ToString36(n)
  }

  /** Distinct integers, negative ones included, render to distinct strings. */
  lemma IntToString36Injective(m: int, n: int)
    requires IntToString36(m) == IntToString36(n)
    ensures m == n
  {
    if m < 0 {
      assert IntToString36(m)[1..] == ToString36(-m);
      assert IntToString36(n)[1..] == ToString36(-n);
      ToString36Injective(-m, -n);
    } else {
      ToString36Injective(m, n);
    }
  }

  /**
   * `Array.prototype.toString` on an array of strings: the elements joined
   * with commas, and the empty string for an empty array.
   */
  function Join(parts: seq<string>): (s: string)
  {
    if |parts| == 0 then ""
    else if |parts| == 1 then parts[0]
    else Join(parts[..|parts| - 1]) + "," + parts[|parts| - 1]
  }

  function TotalLength(parts: seq<string>): nat
  {
    if |parts| == 0 then 0 else TotalLength(parts[..|parts| - 1]) + |parts[|parts| - 1]|
  }

  /** The joined string holds every part and one comma between each pair. */
  lemma {:induction false} JoinLength(parts: seq<string>)
    requires 0 < |parts|
    ensures |Join(parts)| == TotalLength(parts) + |parts| - 1
  {
    if |parts| > 1 {
      JoinLength(parts[..|parts| - 1]);
    } else {
      assert parts[..0] == [];
    }
  }

  /** Where the part `parts[i]` starts in the joined string. */
  function PartOffset(parts: seq<string>, i: nat): nat
    requires i <= |parts|
  {
    TotalLength(parts[..i]) + i
  }

  /**
   * The joined string holds each part at its offset, and a comma just before
   * every part but the first.
   */
  lemma {:induction false} JoinHoldsParts(parts: seq<string>, i: nat)
    requires i < |parts|
    ensures PartOffset(parts, i) + |parts[i]| <= |Join(parts)|
    ensures Join(parts)[PartOffset(parts, i)..PartOffset(parts, i) + |parts[i]|] == parts[i]
    ensures 0 < i ==> Join(parts)[PartOffset(parts, i) - 1] == ','
  {
    var n := |parts|;
    if n == 1 {
      assert parts[..0] == [];
    } else {
      var init := parts[..n - 1];
      assert Join(parts) == Join(init) + "," + parts[n - 1];
      JoinLength(init);
      if i < n - 1 {
        JoinHoldsParts(init, i);
        assert init[..i] == parts[..i];
      } else {
        assert parts[..i] == init;
      }
    }
  }

  /** The joined key string is empty exactly when there are no keys, or one empty key. */
  lemma JoinEmptyIff(parts: seq<string>)
    ensures Join(parts) == "" <==> |parts| == 0 || (|parts| == 1 && parts[0] == "")
  {
  }

  /**
   * `s.substring(start, end)`: both bounds clamped into `0..|s|`, and swapped
   * when the start is past the end.
   */
  function Substring(s: string, start: int, end: int): string
  {
    var from := Clamp(start, 0, |s|);
    var to := Clamp(end, 0, |s|);
    if from <= to then s[from..to] else s[to..from]
  }

  /** Within bounds, `substring` is the slice between them. */
  lemma SubstringInRange(s: string, start: int, end: int)
    requires 0 <= start <= end <= |s|
    ensures Substring(s, start, end) == s[start..end]
  {
  }

  /** `substring` does not care in which order its bounds are given. */
  lemma SubstringSymmetric(s: string, start: int, end: int)
    ensures Substring(s, start, end) == Substring(s, end, start)
  {
  }

  /** `s.slice(start)`: a negative start counts from the end; the start is clamped into `0..|s|`. */
  function SliceFrom(s: string, start: int): (r: string)
    ensures |r| <= |s| && s == s[..|s| - |r|] + r
    ensures 0 <= start <= |s| ==> |r| == |s| - start
    ensures start < 0 ==> |r| == Min(-start, |s|)
  {
    var from := if start < 0 then Max(|s| + start, 0) else Min(start, |s|);
    s[from..]
  }
}
