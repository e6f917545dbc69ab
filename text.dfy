/** String operations the source takes from the JavaScript runtime:
    `toLowerCase`, `includes`, `startsWith`, `some` over a pattern list and
    the decimal rendering of a number inside a template string. Lowering is
    ASCII-only. */
module Text {

  /** `c.toLowerCase()` restricted to ASCII letters. */
  function LowerChar(c: char): char {
    if 'A' <= c <= 'Z' then (c as int + 32) as char else c
  }

  /** `s.toLowerCase()`, character by character. */
  function ToLower(s: string): (r: string)
    ensures |r| == |s|
    ensures forall i :: 0 <= i < |s| ==> r[i] == LowerChar(s[i])
  {
    seq(|s|, i requires 0 <= i < |s| => LowerChar(s[i]))
  }

  lemma ToLowerAppend(a: string, b: string)
    ensures ToLower(a + b) == ToLower(a) + ToLower(b)
  {
  }

  lemma ToLowerSlice(s: string, i: nat, j: nat)
    requires i <= j <= |s|
    ensures ToLower(s)[i..j] == ToLower(s[i..j])
  {
  }

  /** No upper-case ASCII letter occurs in `s`. */
  predicate IsLower(s: string) {
    forall i :: 0 <= i < |s| ==> !('A' <= s[i] <= 'Z')
  }

  /** Lowering is the identity on a string that is already lower-case, and
      whatever it returns is lower-case. */
  lemma ToLowerOfLower(s: string)
    ensures IsLower(s) ==> ToLower(s) == s
    ensures IsLower(ToLower(s))
  {
  }

  /** `p` occurs in `s` starting at index `i`. */
  ghost predicate OccursAt(s: string, p: string, i: int) {
    0 <= i && i + |p| <= |s| && s[i..i + |p|] == p
  }

  /** `s.includes(p)`: `p` is a prefix of some suffix of `s`. */
  function Includes(s: string, p: string): (r: bool)
    ensures p <= s ==> r
    ensures r ==> |p| <= |s|
    decreases |s|
  {
    p <= s || (|s| > 0 && Includes(s[1..], p))
  }

  /** An occurrence of `p` in `s` makes `s.includes(p)` hold. */
  lemma {:induction false} IncludesFromOccurrence(s: string, p: string, i: int)
    requires OccursAt(s, p, i)
    ensures Includes(s, p)
    decreases i
  {
    if i == 0 {
      assert s[..|p|] == p;
    } else {
      assert s[1..][i - 1..i - 1 + |p|] == s[i..i + |p|];
      IncludesFromOccurrence(s[1..], p, i - 1);
    }
  }

  /** `s.includes(p)` only holds where `p` occurs in `s`. */
  lemma {:induction false} OccurrenceFromIncludes(s: string, p: string)
    requires Includes(s, p)
    ensures exists i :: OccursAt(s, p, i)
    decreases |s|
  {
    if p <= s {
      assert OccursAt(s, p, 0);
    } else {
      OccurrenceFromIncludes(s[1..], p);
      var i :| OccursAt(s[1..], p, i);
      assert s[1..][i..i + |p|] == s[i + 1..i + 1 + |p|];
      assert OccursAt(s, p, i + 1);
    }
  }

  /** `Includes` finds exactly the occurrences of `p` in `s`. */
  lemma IncludesIff(s: string, p: string)
    ensures Includes(s, p) <==> exists i :: OccursAt(s, p, i)
  {
    if Includes(s, p) {
      OccurrenceFromIncludes(s, p);
    }
    forall i | OccursAt(s, p, i) ensures Includes(s, p) {
      IncludesFromOccurrence(s, p, i);
    }
  }

  /** Every character of an included pattern occurs in the string; so a
      string that lacks one of them does not include the pattern. */
  lemma IncludesChars(s: string, p: string, k: nat)
    requires k < |p|
    ensures Includes(s, p) ==> p[k] in s
  {
    if Includes(s, p) {
      OccurrenceFromIncludes(s, p);
      var i :| OccursAt(s, p, i);
      assert s[i + k] == s[i..i + |p|][k] == p[k];
    }
  }

  /** `s.endsWith(t)`. */
  predicate EndsWith(s: string, t: string) {
    |t| <= |s| && s[|s| - |t|..] == t
  }

  /** Two strings with the same ending are equal once it is cut off. */
  lemma StripSuffix(a: string, b: string, t: string)
    ensures a + t == b + t ==> a == b
  {
    if a + t == b + t {
      assert a == (a + t)[..|a|] && b == (b + t)[..|b|];
    }
  }

  /** Two strings with the same beginning are equal once it is cut off. */
  lemma StripPrefix(t: string, a: string, b: string)
    ensures t + a == t + b ==> a == b
  {
    if t + a == t + b {
      assert a == (t + a)[|t|..] && b == (t + b)[|t|..];
    }
  }

  /** `patterns.some(p => s.includes(p))`. */
  function IncludesAny(s: string, patterns: seq<string>): (r: bool)
    ensures r <==> exists k :: 0 <= k < |patterns| && Includes(s, patterns[k])
  {
    if patterns == [] then false
    else Includes(s, patterns[0]) || IncludesAny(s, patterns[1..])
  }

  /** The decimal digit for `d`. */
  function DigitChar(d: nat): char
    requires d < 10
  {
    ('0' as int + d) as char
  }

  predicate IsDigit(c: char) {
    '0' <= c <= '9'
  }

  /** The decimal rendering of a natural number, as `${n}` produces it. */
  function NatToString(n: nat): (r: string)
    ensures |r| >= 1 && forall i :: 0 <= i < |r| ==> IsDigit(r[i])
    ensures n < 10 <==> |r| == 1
  {
    if n < 10 then [DigitChar(n)] else NatToString(n / 10) + [DigitChar(n % 10)]
  }

  /** Different numbers have different decimal renderings. */
  lemma {:induction false} NatToStringInjective(a: nat, b: nat)
    ensures NatToString(a) == NatToString(b) ==> a == b
  {
    var sa, sb := NatToString(a), NatToString(b);
    if a >= 10 && b >= 10 {
      NatToStringInjective(a / 10, b / 10);
      if sa == sb {
        assert sa[..|sa| - 1] == NatToString(a / 10);
        assert sb[..|sb| - 1] == NatToString(b / 10);
        assert DigitChar(a % 10) == sa[|sa| - 1];
        assert DigitChar(b % 10) == sb[|sb| - 1];
      }
    } else if a < 10 && b < 10 {
      assert sa[0] == DigitChar(a) && sb[0] == DigitChar(b);
    }
  }

  /** The rendering of any integer, with a leading `-` when it is negative. */
  function IntToString(n: int): (r: string)
    ensures |r| >= 1
    ensures n >= 0 ==> r == NatToString(n)
    ensures n < 0 ==> r == "-" + NatToString(-n)
  {
    if n < 0 then "-" + NatToString(-n) else NatToString(n)
  }

  /** Different integers have different renderings. */
  lemma IntToStringInjective(a: int, b: int)
    ensures IntToString(a) == IntToString(b) ==> a == b
  {
    if a >= 0 && b >= 0 {
      NatToStringInjective(a, b);
    } else if a < 0 && b < 0 {
      NatToStringInjective(-a, -b);
      assert IntToString(a) == IntToString(b) ==> IntToString(a)[1..] == IntToString(b)[1..];
    } else if a < 0 {
      assert !IsDigit(IntToString(a)[0]) && IsDigit(IntToString(b)[0]);
    } else {
      assert IsDigit(IntToString(a)[0]) && !IsDigit(IntToString(b)[0]);
    }
  }

  /** No rendering of an integer holds `/`. */
  lemma NoSlashInNumber(n: int)
    ensures '/' !in IntToString(n)
  {
    var r := IntToString(n);
    forall i | 0 <= i < |r| ensures r[i] != '/' {
      if n < 0 && i > 0 {
        assert r[i] == NatToString(-n)[i - 1];
      }
    }
  }

  /** A string cut at the first occurrence of a separator splits one way
      only. */
  lemma SplitAtSeparator(a: string, b: string, c: string, d: string, sep: char)
    requires sep !in a && sep !in c
    ensures a + [sep] + b == c + [sep] + d ==> a == c && b == d
  {
    var l, r := a + [sep] + b, c + [sep] + d;
    if l == r {
      assert l[|a|] == sep && r[|c|] == sep;
      assert forall i :: 0 <= i < |a| ==> l[i] == a[i];
      assert forall i :: 0 <= i < |c| ==> r[i] == c[i];
      assert |a| == |c|;
      assert a == l[..|a|] && c == r[..|c|];
      assert b == l[|a| + 1..] && d == r[|c| + 1..];
    }
  }
}
