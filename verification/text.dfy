/**
 * The handful of JavaScript string operations the dashboard's core relies on:
 * `trim`, `toLowerCase`, `includes`, `localeCompare`, and number-to-decimal text.
 */
module Text {

  /**
   * The code points `String.prototype.trim` strips: the WhiteSpace and LineTerminator
   * productions of ECMAScript (section 12.2 and 12.3 of ECMA-262), Unicode category Zs included.
   */
  predicate IsWhitespace(c: char) {
    var n := c as int;
    || n == 0x09 || n == 0x0B || n == 0x0C || n == 0x20 || n == 0xA0 || n == 0xFEFF
    || n == 0x0A || n == 0x0D || n == 0x2028 || n == 0x2029
    || n == 0x1680 || (0x2000 <= n <= 0x200A) || n == 0x202F || n == 0x205F || n == 0x3000
  }

  predicate AllWhitespace(s: string) {
    forall i :: 0 <= i < |s| ==> IsWhitespace(s[i])
  }

  /** `s` with its leading whitespace removed. */
  function TrimStart(s: string): (r: string)
    ensures |r| <= |s| && r == s[|s| - |r|..]
    ensures AllWhitespace(s[..|s| - |r|])
    ensures |r| > 0 ==> !IsWhitespace(r[0])
    decreases |s|
  {
    if |s| > 0 && IsWhitespace(s[0]) then TrimStart(s[1..]) else s
  }

  /** `s` with its trailing whitespace removed. */
  function TrimEnd(s: string): (r: string)
    ensures |r| <= |s| && r == s[..|r|]
    ensures AllWhitespace(s[|r|..])
    ensures |r| > 0 ==> !IsWhitespace(r[|r| - 1])
    decreases |s|
  {
    if |s| > 0 && IsWhitespace(s[|s| - 1]) then TrimEnd(s[..|s| - 1]) else s
  }

  /** `String.prototype.trim`. */
  function Trim(s: string): string {
    TrimEnd(TrimStart(s))
  }

  /**
   * Trimming cuts `s` into whitespace, a middle that neither starts nor ends with
   * whitespace, and whitespace; the middle is the result.
   */
  lemma TrimIsMiddle(s: string) returns (lo: int, hi: int)
    ensures 0 <= lo <= hi <= |s| && Trim(s) == s[lo..hi]
    ensures AllWhitespace(s[..lo]) && AllWhitespace(s[hi..])
    ensures hi > lo ==> !IsWhitespace(s[lo]) && !IsWhitespace(s[hi - 1])
  {
    var t := TrimStart(s);
    lo := |s| - |t|;
    hi := lo + |Trim(s)|;
    assert s[hi..] == t[|Trim(s)|..];
  }

  /** A string trims to nothing exactly when it is empty or all whitespace. */
  lemma TrimEmptyIff(s: string)
    ensures Trim(s) == "" <==> AllWhitespace(s)
  {
    var lo, hi := TrimIsMiddle(s);
    if Trim(s) != "" {
      assert !IsWhitespace(s[lo]);
    }
    if Trim(s) == "" {
      forall i | 0 <= i < |s|
        ensures IsWhitespace(s[i])
      {
        if i < lo {
          assert s[i] == s[..lo][i];
        } else {
          assert s[i] == s[hi..][i - hi];
        }
      }
    }
  }

  /** A string that neither starts nor ends with whitespace is its own trim. */
  lemma TrimUntouched(s: string)
    requires |s| > 0 && !IsWhitespace(s[0]) && !IsWhitespace(s[|s| - 1])
    ensures Trim(s) == s
  {
  }

  /** `toLowerCase` on one character; only the ASCII letters are mapped. */
  function LowerChar(c: char): char {
    if 'A' <= c <= 'Z' then (c as int + 32) as char else c
  }

  /** `String.prototype.toLowerCase`, restricted to ASCII letters. */
  function Lower(s: string): (r: string)
    ensures |r| == |s|
    ensures forall i :: 0 <= i < |s| ==> r[i] == LowerChar(s[i])
  {
    seq(|s|, i requires 0 <= i < |s| => LowerChar(s[i]))
  }

  /** Lowercasing never turns whitespace into non-whitespace or back. */
  lemma LowerKeepsWhitespace(s: string)
    ensures AllWhitespace(Lower(s)) <==> AllWhitespace(s)
  {
    assert forall c: char :: IsWhitespace(LowerChar(c)) <==> IsWhitespace(c);
  }

  /** `t` occurs in `s` starting at position `i`. */
  predicate OccursAt(s: string, t: string, i: int) {
    0 <= i && i + |t| <= |s| && s[i..i + |t|] == t
  }

  /** `String.prototype.includes`: `t` occurs in `s` at the front or further on. */
  predicate Contains(s: string, t: string)
    decreases |s|
  {
    (|t| <= |s| && s[..|t|] == t) || (|s| > 0 && Contains(s[1..], t))
  }

  /** `Contains` agrees with the positional reading of "is a substring of". */
  lemma {:induction false} ContainsIff(s: string, t: string)
    ensures Contains(s, t) <==> exists i :: OccursAt(s, t, i)
    decreases |s|
  {
    if |s| > 0 {
      ContainsIff(s[1..], t);
      if |t| <= |s| && s[..|t|] == t {
        assert OccursAt(s, t, 0);
      }
      if exists i :: OccursAt(s[1..], t, i) {
        var i :| OccursAt(s[1..], t, i);
        assert s[i + 1..i + 1 + |t|] == s[1..][i..i + |t|];
        assert OccursAt(s, t, i + 1);
      }
      if exists i :: OccursAt(s, t, i) {
        var i :| OccursAt(s, t, i);
        if i > 0 {
          assert s[1..][i - 1..i - 1 + |t|] == s[i..i + |t|];
          assert OccursAt(s[1..], t, i - 1);
        } else {
          assert s[..|t|] == t;
        }
      }
    } else if |t| == 0 {
      assert OccursAt(s, t, 0);
    }
  }

  /** The empty string is found in every string. */
  lemma ContainsEmpty(s: string)
    ensures Contains(s, "")
  {
    assert s[..0] == "";
  }

  /** A non-empty needle can only be found if its first character occurs in the haystack. */
  lemma ContainsFirstChar(s: string, t: string)
    requires |t| > 0 && Contains(s, t)
    ensures t[0] in s
  {
    ContainsIff(s, t);
    var i :| OccursAt(s, t, i);
    assert s[i] == s[i..i + |t|][0];
  }

  /**
   * The stand-in for `String.prototype.localeCompare`: code-point lexicographic order,
   * reporting -1, 0 or 1. The sort only relies on its being a total order.
   */
  function LocaleCompare(a: string, b: string): (r: int)
    ensures -1 <= r <= 1
    ensures r == 0 <==> a == b
    decreases |a|
  {
    if |a| == 0 && |b| == 0 then 0
    else if |a| == 0 then -1
    else if |b| == 0 then 1
    else if a[0] < b[0] then -1
    else if a[0] > b[0] then 1
    else LocaleCompare(a[1..], b[1..])
  }

  /** Swapping the arguments negates the comparison. */
  lemma {:induction false} LocaleCompareAntisymmetric(a: string, b: string)
    ensures LocaleCompare(b, a) == -LocaleCompare(a, b)
    decreases |a|
  {
    if |a| > 0 && |b| > 0 && a[0] == b[0] {
      LocaleCompareAntisymmetric(a[1..], b[1..]);
    }
  }

  /** "Not after" is transitive. */
  lemma {:induction false} LocaleCompareTransitive(a: string, b: string, c: string)
    requires LocaleCompare(a, b) <= 0 && LocaleCompare(b, c) <= 0
    ensures LocaleCompare(a, c) <= 0
    decreases |a|
  {
    if |a| > 0 && |b| > 0 && |c| > 0 && a[0] == b[0] && b[0] == c[0] {
      LocaleCompareTransitive(a[1..], b[1..], c[1..]);
    }
  }

  /** Decimal digits of `n`, as `String(n)` writes a non-negative integer. */
  function DecimalString(n: nat): (r: string)
    ensures |r| > 0
    ensures forall i :: 0 <= i < |r| ==> '0' <= r[i] <= '9'
  {
    var digit := ['0' + (n % 10) as char];
    if n < 10 then digit else DecimalString(n / 10) + digit
  }
}
