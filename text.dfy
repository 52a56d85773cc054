/**
 * The .NET string operations the modelled code relies on, on `seq<char>`.
 * Case mapping covers ASCII letters only; comparisons are ordinal.
 */
module Text {

  /** `s.StartsWith(p)`. */
  predicate StartsWith(s: string, p: string)
  {
    |p| <= |s| && s[..|p|] == p
  }

  function LowerChar(c: char): char
  {
    if 'A' <= c <= 'Z' then (c as int + 32) as char else c
  }

  function UpperChar(c: char): char
  {
    if 'a' <= c <= 'z' then (c as int - 32) as char else c
  }

  /** `s.ToLowerInvariant()`. */
  function Lower(s: string): (r: string)
    ensures |r| == |s|
    ensures forall i :: 0 <= i < |s| ==> r[i] == LowerChar(s[i])
  {
    seq(|s|, i requires 0 <= i < |s| => LowerChar(s[i]))
  }

  /** `s.ToUpper()`. */
  function Upper(s: string): (r: string)
    ensures |r| == |s|
    ensures forall i :: 0 <= i < |s| ==> r[i] == UpperChar(s[i])
  {
    seq(|s|, i requires 0 <= i < |s| => UpperChar(s[i]))
  }

  /** `char.IsWhiteSpace(c)`: the Unicode space separators, line and paragraph separators, and U+0009..U+000D, U+0085, U+00A0. */
  predicate IsWhiteSpace(c: char)
  {
    var n := c as int;
    n == 0x20 || 0x09 <= n <= 0x0D || n == 0x85 || n == 0xA0 || n == 0x1680
    || 0x2000 <= n <= 0x200A || n == 0x2028 || n == 0x2029 || n == 0x202F
    || n == 0x205F || n == 0x3000
  }

  /** `string.IsNullOrWhiteSpace(s)` for a non-null `s`. */
  predicate IsBlank(s: string)
  {
    forall i :: 0 <= i < |s| ==> IsWhiteSpace(s[i])
  }

  /** `s.TrimStart()`: the suffix left after dropping leading white space. */
  function TrimStart(s: string): (r: string)
    ensures |r| <= |s| && r == s[|s| - |r|..]
    ensures IsBlank(s[..|s| - |r|])
    ensures r == [] || !IsWhiteSpace(r[0])
  {
    if s != [] && IsWhiteSpace(s[0]) then
      var r := TrimStart(s[1..]);
      assert s[..|s| - |r|] == [s[0]] + s[1..][..|s| - 1 - |r|];
      r
    else s
  }

  /** `s.TrimEnd()`: the prefix left after dropping trailing white space. */
  function TrimEnd(s: string): (r: string)
    ensures |r| <= |s| && r == s[..|r|]
    ensures IsBlank(s[|r|..])
    ensures r == [] || !IsWhiteSpace(r[|r| - 1])
  {
    if s != [] && IsWhiteSpace(s[|s| - 1]) then
      var r := TrimEnd(s[..|s| - 1]);
      assert s[|r|..] == s[..|s| - 1][|r|..] + [s[|s| - 1]];
      r
    else s
  }

  /** `s.Trim()`: the middle of `s` left after dropping white space at both ends. */
  function Trim(s: string): (r: string)
    ensures |r| <= |s|
    ensures r == [] || (!IsWhiteSpace(r[0]) && !IsWhiteSpace(r[|r| - 1]))
    ensures IsBlank(s) <==> r == []
    ensures exists a, b :: 0 <= a <= b <= |s| && r == s[a..b] && IsBlank(s[..a]) && IsBlank(s[b..])
  {
    var t := TrimStart(s);
    var r := TrimEnd(t);
    Span(s, t, r);
    TrimmedEmpty(s);
    r
  }

  /** A prefix `r` of a suffix `t` of `s`, with blank text cut away on both sides, is a blank-framed slice of `s`. */
  lemma Span(s: string, t: string, r: string)
    requires |t| <= |s| && t == s[|s| - |t|..] && IsBlank(s[..|s| - |t|])
    requires |r| <= |t| && r == t[..|r|] && IsBlank(t[|r|..])
    ensures var a := |s| - |t|;
            r == s[a..a + |r|] && IsBlank(s[..a]) && IsBlank(s[a + |r|..]) && (r != [] ==> r[0] == t[0])
    ensures exists a, b :: 0 <= a <= b <= |s| && r == s[a..b] && IsBlank(s[..a]) && IsBlank(s[b..])
  {
    var a := |s| - |t|;
    assert s[a + |r|..] == t[|r|..];
    assert r == s[a..a + |r|];
  }

  /** `TrimStart` leaves nothing exactly of a blank string. */
  lemma TrimStartEmpty(s: string)
    ensures IsBlank(s) <==> TrimStart(s) == []
  {
    var t := TrimStart(s);
    assert t == [] ==> s[..|s| - |t|] == s;
    assert t != [] ==> t[0] == s[|s| - |t|];
  }

  /** `TrimEnd` leaves nothing exactly of a blank string. */
  lemma TrimEndEmpty(s: string)
    ensures IsBlank(s) <==> TrimEnd(s) == []
  {
    var t := TrimEnd(s);
    assert t == [] ==> s[|t|..] == s;
    assert t != [] ==> t[|t| - 1] == s[|t| - 1];
  }

  /** Trimming both ends leaves nothing exactly of a blank string. */
  lemma TrimmedEmpty(s: string)
    ensures IsBlank(s) <==> TrimEnd(TrimStart(s)) == []
  {
    var t := TrimStart(s);
    TrimStartEmpty(s);
    TrimEndEmpty(t);
    TrimStartEmpty(t);
  }

  /** A string without white space at either end is its own `Trim`, so `Trim` is idempotent. */
  lemma TrimOfTrimmed(s: string)
    requires s == [] || (!IsWhiteSpace(s[0]) && !IsWhiteSpace(s[|s| - 1]))
    ensures TrimStart(s) == s && TrimEnd(s) == s && Trim(s) == s
  {
  }

  /** A part that is not blank keeps its trimmed start when anything is appended to it. */
  lemma {:induction false} TrimStartAppend(a: string, b: string)
    requires !IsBlank(a)
    ensures TrimStart(a + b) == TrimStart(a) + b
  {
    if IsWhiteSpace(a[0]) {
      assert (a + b)[1..] == a[1..] + b;
      TrimStartAppend(a[1..], b);
    }
  }

  /** A blank part in front is dropped whole by `TrimStart`. */
  lemma {:induction false} TrimStartBlankPrefix(a: string, b: string)
    requires IsBlank(a)
    ensures TrimStart(a + b) == TrimStart(b)
  {
    if a != [] {
      assert (a + b)[1..] == a[1..] + b;
      TrimStartBlankPrefix(a[1..], b);
    } else {
      assert a + b == b;
    }
  }

  /** A part that is not blank keeps its trimmed end when anything is put before it. */
  lemma {:induction false} TrimEndPrepend(a: string, b: string)
    requires !IsBlank(b)
    ensures TrimEnd(a + b) == a + TrimEnd(b)
  {
    var n := |b| - 1;
    if IsWhiteSpace(b[n]) {
      assert (a + b)[..|a + b| - 1] == a + b[..n];
      TrimEndPrepend(a, b[..n]);
    }
  }

  /** A blank part at the end is dropped whole by `TrimEnd`. */
  lemma {:induction false} TrimEndBlankSuffix(a: string, b: string)
    requires IsBlank(b)
    ensures TrimEnd(a + b) == TrimEnd(a)
  {
    if b != [] {
      var n := |b| - 1;
      assert (a + b)[..|a + b| - 1] == a + b[..n];
      TrimEndBlankSuffix(a, b[..n]);
    } else {
      assert a + b == a;
    }
  }

  lemma BlankCons(c: char, b: string)
    requires IsWhiteSpace(c) && IsBlank(b)
    ensures IsBlank([c] + b)
  {
    assert forall i :: 1 <= i < |[c] + b| ==> ([c] + b)[i] == b[i - 1];
  }

  /** What `Trim` makes of `a + " " + b`, by which of the two parts are blank. */
  lemma TrimJoined(a: string, b: string)
    ensures IsBlank(a) && IsBlank(b) ==> Trim(a + " " + b) == []
    ensures !IsBlank(a) && IsBlank(b) ==> Trim(a + " " + b) == Trim(a)
    ensures IsBlank(a) && !IsBlank(b) ==> Trim(a + " " + b) == Trim(b)
    ensures !IsBlank(a) && !IsBlank(b) ==> Trim(a + " " + b) == TrimStart(a) + " " + TrimEnd(b)
  {
    if !IsBlank(a) && IsBlank(b) {
      TrimJoinedFirst(a, b);
    } else if IsBlank(a) && !IsBlank(b) {
      TrimStartBlankPrefix(a + " ", b);
    } else if !IsBlank(a) && !IsBlank(b) {
      TrimJoinedBoth(a, b);
    } else {
      assert IsBlank(a + " " + b);
    }
  }

  lemma TrimJoinedFirst(a: string, b: string)
    requires !IsBlank(a) && IsBlank(b)
    ensures TrimEnd(TrimStart(a + " " + b)) == TrimEnd(TrimStart(a))
  {
    assert a + " " + b == a + (" " + b);
    BlankCons(' ', b);
    TrimStartAppend(a, " " + b);
    TrimEndBlankSuffix(TrimStart(a), " " + b);
  }

  lemma TrimJoinedBoth(a: string, b: string)
    requires !IsBlank(a) && !IsBlank(b)
    ensures TrimEnd(TrimStart(a + " " + b)) == TrimStart(a) + " " + TrimEnd(b)
  {
    var ta := TrimStart(a);
    assert a + " " + b == a + (" " + b);
    TrimStartAppend(a, " " + b);
    assert ta + (" " + b) == (ta + " ") + b;
    TrimEndPrepend(ta + " ", b);
  }

  /** `pattern` occurs in `s` at index `i`. */
  predicate OccursAt(s: string, pattern: string, i: int)
  {
    0 <= i && i + |pattern| <= |s| && s[i..i + |pattern|] == pattern
  }

  predicate Contains(s: string, pattern: string)
  {
    exists i :: 0 <= i <= |s| && OccursAt(s, pattern, i)
  }

  /** `s.Replace(pattern, "")`: every occurrence found by a left-to-right, non-overlapping scan is removed. */
  function RemoveAll(s: string, pattern: string): (r: string)
    requires pattern != []
    ensures |r| <= |s|
    ensures !Contains(s, pattern) ==> r == s
    ensures Contains(s, pattern) ==> |r| <= |s| - |pattern|
    decreases |s|
  {
    if |s| < |pattern| then s
    else if s[..|pattern|] == pattern then
      assert OccursAt(s, pattern, 0);
      RemoveAll(s[|pattern|..], pattern)
    else
      var rest := RemoveAll(s[1..], pattern);
      assert !Contains(s, pattern) ==> !Contains(s[1..], pattern) by {
        forall i | OccursAt(s[1..], pattern, i) ensures OccursAt(s, pattern, i + 1) {
          assert s[1..][i..i + |pattern|] == s[i + 1..i + 1 + |pattern|];
        }
      }
      assert Contains(s, pattern) ==> Contains(s[1..], pattern) by {
        if Contains(s, pattern) {
          var i :| 0 <= i <= |s| && OccursAt(s, pattern, i);
          assert i != 0;
          assert s[1..][i - 1..i - 1 + |pattern|] == s[i..i + |pattern|];
          assert OccursAt(s[1..], pattern, i - 1);
        }
      }
      assert s == [s[0]] + s[1..];
      [s[0]] + rest
  }

  /** An occurrence at the front is removed whole, and the scan goes on after it. */
  lemma RemoveAllPrefix(p: string, t: string)
    requires p != []
    ensures RemoveAll(p + t, p) == RemoveAll(t, p)
  {
    assert (p + t)[..|p|] == p;
    assert (p + t)[|p|..] == t;
  }

  predicate IsDigit(c: char)
  {
    '0' <= c <= '9'
  }

  /** The decimal digits of `n`, most significant first, with no leading zero. */
  function NatToString(n: nat): (r: string)
    ensures |r| >= 1 && forall i :: 0 <= i < |r| ==> IsDigit(r[i])
    ensures n == 0 <==> r == "0"
    ensures n < 10 <==> |r| == 1
    decreases n
  {
    if n < 10 then [(48 + n) as char]
    else NatToString(n / 10) + [(48 + n % 10) as char]
  }

  /** `i.ToString()` in the invariant culture. */
  function IntToString(i: int): (r: string)
    ensures |r| >= 1
    ensures i >= 0 ==> IsDigit(r[0])
    ensures i < 0 ==> r[0] == '-'
  {
    if i < 0 then "-" + NatToString(-i) else NatToString(i)
  }

  /** `string.Join(separator, parts)`. */
  function Join(separator: string, parts: seq<string>): (r: string)
    ensures parts == [] ==> r == ""
    ensures |parts| == 1 ==> r == parts[0]
  {
    if parts == [] then ""
    else if |parts| == 1 then parts[0]
    else parts[0] + separator + Join(separator, parts[1..])
  }

  /** Strings that agree around their middles differ only if their middles do. */
  lemma FramedEqual(prefix: string, x: string, y: string, suffix: string)
    requires prefix + x + suffix == prefix + y + suffix
    ensures x == y
  {
    var s := prefix + x + suffix;
    assert x == s[|prefix|..|s| - |suffix|];
  }

  /** `FramedEqual` for a suffix built of two parts. */
  lemma FramedEqual3(prefix: string, x: string, y: string, middle: string, suffix: string)
    requires prefix + x + middle + suffix == prefix + y + middle + suffix
    ensures x == y
  {
    var s := prefix + x + middle + suffix;
    var t := prefix + y + middle + suffix;
    assert |x| == |y|;
    assert x == s[|prefix|..|prefix| + |x|];
    assert y == t[|prefix|..|prefix| + |y|];
  }

  /** Different numbers print differently. */
  lemma {:induction false} NatToStringInjective(a: nat, b: nat)
    requires NatToString(a) == NatToString(b)
    ensures a == b
  {
    if a >= 10 && b >= 10 {
      var sa, sb := NatToString(a), NatToString(b);
      assert sa[|sa| - 1] == sb[|sb| - 1];
      assert a % 10 == b % 10;
      assert NatToString(a / 10) == sa[..|sa| - 1];
      assert NatToString(b / 10) == sb[..|sb| - 1];
      NatToStringInjective(a / 10, b / 10);
    }
  }

  lemma IntToStringInjective(a: int, b: int)
    requires IntToString(a) == IntToString(b)
    ensures a == b
  {
    if a < 0 && b < 0 {
      assert NatToString(-a) == IntToString(a)[1..];
      assert NatToString(-b) == IntToString(b)[1..];
      NatToStringInjective(-a, -b);
    } else if a >= 0 && b >= 0 {
      NatToStringInjective(a, b);
    }
  }

  lemma StartsWithAppend(p: string, x: string)
    ensures StartsWith(p + x, p)
  {
    assert (p + x)[..|p|] == p;
  }
}
