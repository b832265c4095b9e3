/** The few pieces of Python string handling the tools rely on: slicing
    (`s[:n]`), prefix concatenation, `", ".join(...)` and `str(int)`.
    Python's `len` counts code points, and so does `|s|` on Dafny's
    `string` for every text made of Unicode scalar values; a Python `str`
    holding a lone surrogate has no counterpart here. */
module Strings {

  import opened Wrappers

  /** `p` is a prefix of `s`. */
  predicate IsPrefix(p: string, s: string)
  {
    |p| <= |s| && s[..|p|] == p
  }

  /** No character of `s` is `c`. */
  predicate Lacks(s: string, c: char)
  {
    forall i :: 0 <= i < |s| ==> s[i] != c
  }

  /** Python's `s[:n]` for a non-negative `n`: the longest prefix of `s`
      of length at most `n`. */
  function Take(s: string, n: nat): (r: string)
    ensures IsPrefix(r, s)
    ensures |r| <= n
    ensures |s| <= n ==> r == s
    ensures n <= |s| ==> |r| == n
  {
    if |s| <= n then s else s[..n]
  }

  /** If `s` begins with `prefix`, the rest of `s`; otherwise nothing. */
  function StripPrefix(prefix: string, s: string): (r: Option<string>)
    ensures r.Some? <==> IsPrefix(prefix, s)
    ensures r.Some? ==> prefix + r.value == s
  {
    if IsPrefix(prefix, s) then Some(s[|prefix|..]) else None
  }

  lemma StripPrefixOfConcat(prefix: string, rest: string)
    ensures StripPrefix(prefix, prefix + rest) == Some(rest)
  {
    assert (prefix + rest)[..|prefix|] == prefix;
    assert (prefix + rest)[|prefix|..] == rest;
  }

  /** Python's `sep.join(parts)`. */
  function Join(sep: string, parts: seq<string>): string
  {
    if |parts| == 0 then ""
    else if |parts| == 1 then parts[0]
    else parts[0] + sep + Join(sep, parts[1..])
  }

  lemma JoinThree(sep: string, a: string, b: string, c: string)
    ensures Join(sep, [a, b, c]) == a + sep + b + sep + c
  {
    assert [a, b, c][1..] == [b, c];
    assert [b, c][1..] == [c];
    assert Join(sep, [b, c]) == b + sep + c;
    assert a + sep + (b + sep + c) == a + sep + b + sep + c;
  }

  /** The shape of a join of at least one part: it starts with the first
      part, and when there are more parts the separator follows it. */
  lemma JoinShape(sep: string, parts: seq<string>)
    requires |parts| > 0
    ensures IsPrefix(parts[0], Join(sep, parts))
    ensures |parts| == 1 ==> Join(sep, parts) == parts[0]
    ensures |parts| > 1 ==>
              var s := Join(sep, parts);
              |parts[0]| + |sep| <= |s|
              && s[|parts[0]|..|parts[0]| + |sep|] == sep
              && s[|parts[0]| + |sep|..] == Join(sep, parts[1..])
  {
    if |parts| > 1 {
      var s := Join(sep, parts);
      assert s == parts[0] + sep + Join(sep, parts[1..]);
      assert s[..|parts[0]|] == parts[0];
      assert s[|parts[0]|..|parts[0]| + |sep|] == sep;
      assert s[|parts[0]| + |sep|..] == Join(sep, parts[1..]);
    }
  }

  /** A prefix free of `c` ends no later than any position of `c`. */
  lemma PrefixEndsBeforeChar(p: string, s: string, c: char, k: nat)
    requires IsPrefix(p, s) && Lacks(p, c)
    requires k < |s| && s[k] == c
    ensures |p| <= k
  {
    forall i | 0 <= i < |p|
      ensures s[i] != c
    {
      assert s[i] == s[..|p|][i];
    }
  }

  /** Joining is injective on non-empty lists of parts that never contain
      the separator's first character: the joined text determines the parts. */
  lemma {:induction false} JoinInjective(sep: string, a: seq<string>, b: seq<string>)
    requires |sep| > 0 && |a| > 0 && |b| > 0
    requires forall i :: 0 <= i < |a| ==> Lacks(a[i], sep[0])
    requires forall i :: 0 <= i < |b| ==> Lacks(b[i], sep[0])
    requires Join(sep, a) == Join(sep, b)
    ensures a == b
    decreases |a|
  {
    var s := Join(sep, a);
    JoinShape(sep, a);
    JoinShape(sep, b);
    if |a| > 1 {
      assert s[|a[0]|] == sep[0];
      PrefixEndsBeforeChar(b[0], s, sep[0], |a[0]|);
    }
    if |b| > 1 {
      assert s[|b[0]|] == sep[0];
      PrefixEndsBeforeChar(a[0], s, sep[0], |b[0]|);
    }
    assert |a| == 1 <==> |b| == 1;
    if |a| > 1 {
      assert |a[0]| == |b[0]|;
      assert a[0] == s[..|a[0]|] == b[0];
      JoinInjective(sep, a[1..], b[1..]);
      assert a == [a[0]] + a[1..];
      assert b == [b[0]] + b[1..];
    }
  }

  /** A decimal digit. */
  predicate IsDigit(c: char)
  {
    '0' <= c <= '9'
  }

  predicate AllDigits(s: string)
  {
    forall i :: 0 <= i < |s| ==> IsDigit(s[i])
  }

  function DigitChar(d: nat): (c: char)
    requires d < 10
    ensures IsDigit(c) && c as int - '0' as int == d
  {
    ('0' as int + d) as char
  }

  /** Python's `str(n)` for a natural number: decimal digits, with no
      leading zero except for `0` itself. */
  function NatToString(n: nat): (s: string)
    ensures |s| > 0 && AllDigits(s)
    ensures s[0] == '0' <==> n == 0
    decreases n
  {
    if n < 10 then [DigitChar(n)] else NatToString(n / 10) + [DigitChar(n % 10)]
  }

  /** The number a string of decimal digits denotes. */
  function DigitsValue(s: string): nat
    requires AllDigits(s)
    decreases |s|
  {
    if s == [] then 0
    else DigitsValue(s[..|s| - 1]) * 10 + (s[|s| - 1] as int - '0' as int)
  }

  lemma {:induction false} NatToStringRoundTrip(n: nat)
    ensures DigitsValue(NatToString(n)) == n
    decreases n
  {
    if n >= 10 {
      var s := NatToString(n);
      NatToStringRoundTrip(n / 10);
      assert s[..|s| - 1] == NatToString(n / 10);
    }
  }

  /** Python's `str(n)` for any integer: a minus sign before the digits of
      a negative number. */
  function IntToString(n: int): string
  {
    if n < 0 then "-" + NatToString(-n) else NatToString(n)
  }

  /** Decimal digits as `str` writes them: at least one, and no leading
      zero unless the number is 0 itself. */
  predicate CanonicalDigits(s: string)
  {
    |s| > 0 && AllDigits(s) && (s[0] == '0' ==> |s| == 1)
  }

  /** Reads back what `IntToString` writes, and nothing else: an empty
      string, a leading zero or a "-0" is refused. */
  function ParseInt(s: string): Option<int>
  {
    if |s| > 1 && s[0] == '-' && CanonicalDigits(s[1..]) && s[1] != '0' then Some(-(DigitsValue(s[1..]) as int))
    else if CanonicalDigits(s) then Some(DigitsValue(s))
    else None
  }

  lemma IntToStringRoundTrip(n: int)
    ensures ParseInt(IntToString(n)) == Some(n)
  {
    if n < 0 {
      var s := IntToString(n);
      assert s[1..] == NatToString(-n);
      NatToStringRoundTrip(-n);
    } else {
      NatToStringRoundTrip(n);
    }
  }

  /** Canonical digits are exactly what `NatToString` writes for their value. */
  lemma {:induction false} CanonicalDigitsRoundTrip(s: string)
    requires CanonicalDigits(s)
    ensures NatToString(DigitsValue(s)) == s
    decreases |s|
  {
    var c := s[|s| - 1];
    var d := c as int - '0' as int;
    assert DigitChar(d) == c;
    if |s| > 1 {
      var t := s[..|s| - 1];
      assert t[0] == s[0];
      CanonicalDigitsRoundTrip(t);
      var v := DigitsValue(t);
      assert NatToString(v)[0] != '0';
      var n := DigitsValue(s);
      assert n == v * 10 + d;
      assert n / 10 == v && n % 10 == d;
      assert s == t + [c];
    }
  }

  /** Whatever `ParseInt` accepts is the `str` of the number it reads. */
  lemma ParseIntCanonical(s: string, n: int)
    requires ParseInt(s) == Some(n)
    ensures IntToString(n) == s
  {
    if |s| > 1 && s[0] == '-' && CanonicalDigits(s[1..]) && s[1] != '0' {
      CanonicalDigitsRoundTrip(s[1..]);
      assert NatToString(DigitsValue(s[1..]))[0] != '0';
      assert s == "-" + s[1..];
    } else {
      CanonicalDigitsRoundTrip(s);
    }
  }
}
