/** The JavaScript text built-ins the application relies on:
    `String.prototype.trim`, the decimal text of an integer in a template
    string, and a first-occurrence search used to read URLs back. */
module JsText {
  import opened JsValues

  /** WhiteSpace and LineTerminator code points as ECMAScript defines them
      (section 12.2 and 12.3 of ECMA-262); `trim` removes exactly these. */
  predicate IsWhiteSpace(c: char)
  {
    var n := c as int;
    n == 0x09 || n == 0x0A || n == 0x0B || n == 0x0C || n == 0x0D || n == 0x20 ||
    n == 0xA0 || n == 0x1680 || (0x2000 <= n <= 0x200A) || n == 0x2028 || n == 0x2029 ||
    n == 0x202F || n == 0x205F || n == 0x3000 || n == 0xFEFF
  }

  predicate AllWhiteSpace(s: string)
  {
    forall i :: 0 <= i < |s| ==> IsWhiteSpace(s[i])
  }

  /** White space up to `n` and from `n` on is white space throughout. */
  lemma AllWhiteSpaceSplit(s: string, n: int)
    requires 0 <= n <= |s|
    requires AllWhiteSpace(s[..n]) && AllWhiteSpace(s[n..])
    ensures AllWhiteSpace(s)
  {
    forall k | 0 <= k < |s| ensures IsWhiteSpace(s[k]) {
      if k < n { assert s[k] == s[..n][k]; } else { assert s[k] == s[n..][k - n]; }
    }
  }

  /** One more leading white-space character dropped: a suffix of `s[1..]` with
      white space before it is a suffix of `s` with white space before it. */
  lemma DropLeading(s: string, r: string)
    requires |s| > 0 && IsWhiteSpace(s[0])
    requires |r| <= |s| - 1 && r == s[1..][|s| - 1 - |r|..]
    requires AllWhiteSpace(s[1..][..|s| - 1 - |r|])
    ensures r == s[|s| - |r|..]
    ensures AllWhiteSpace(s[..|s| - |r|])
  {
    var n := |s| - |r|;
    assert s[1..][n - 1..] == s[n..];
    forall k | 0 <= k < n ensures IsWhiteSpace(s[..n][k]) {
      if k > 0 { assert s[..n][k] == s[1..][..n - 1][k - 1]; }
    }
  }

  /** One more trailing white-space character dropped, symmetrically. */
  lemma DropTrailing(s: string, r: string)
    requires |s| > 0 && IsWhiteSpace(s[|s| - 1])
    requires |r| <= |s| - 1 && r == s[..|s| - 1][..|r|]
    requires AllWhiteSpace(s[..|s| - 1][|r|..])
    ensures r == s[..|r|]
    ensures AllWhiteSpace(s[|r|..])
  {
    var t := s[..|s| - 1];
    assert t[..|r|] == s[..|r|];
    forall k | 0 <= k < |s| - |r| ensures IsWhiteSpace(s[|r|..][k]) {
      if k < |s| - 1 - |r| { assert s[|r|..][k] == t[|r|..][k]; }
    }
  }

  /** Drops leading white space: the result is a suffix of `s`, what was dropped
      is all white space, and the result does not start with white space. */
  function TrimStart(s: string): (r: string)
    ensures |r| <= |s| && r == s[|s| - |r|..]
    ensures AllWhiteSpace(s[..|s| - |r|])
    ensures r == [] || !IsWhiteSpace(r[0])
  {
    if |s| > 0 && IsWhiteSpace(s[0]) then
      var r := TrimStart(s[1..]);
      DropLeading(s, r);
      r
    else s
  }

  /** Drops trailing white space: the result is a prefix of `s`, what was dropped
      is all white space, and the result does not end with white space. */
  function TrimEnd(s: string): (r: string)
    ensures |r| <= |s| && r == s[..|r|]
    ensures AllWhiteSpace(s[|r|..])
    ensures r == [] || !IsWhiteSpace(r[|r| - 1])
  {
    if |s| > 0 && IsWhiteSpace(s[|s| - 1]) then
      var r := TrimEnd(s[..|s| - 1]);
      DropTrailing(s, r);
      r
    else s
  }

  /** `s.trim()`: empty exactly when `s` is all white space, and otherwise
      neither starts nor ends with white space. */
  function Trim(s: string): (r: string)
    ensures |r| <= |s|
    ensures r == [] <==> AllWhiteSpace(s)
    ensures r != [] ==> !IsWhiteSpace(r[0]) && !IsWhiteSpace(r[|r| - 1])
  {
    var t := TrimStart(s);
    var r := TrimEnd(t);
    TrimPasses(s, t, r);
    r
  }

  /** What the two passes of `Trim` promise, put together: nothing is left when
      `s` is all white space, and otherwise a text that neither starts nor ends
      with white space. */
  lemma TrimPasses(s: string, t: string, r: string)
    requires |t| <= |s| && t == s[|s| - |t|..] && AllWhiteSpace(s[..|s| - |t|])
    requires t == [] || !IsWhiteSpace(t[0])
    requires |r| <= |t| && r == t[..|r|] && AllWhiteSpace(t[|r|..])
    requires r == [] || !IsWhiteSpace(r[|r| - 1])
    ensures r == [] <==> AllWhiteSpace(s)
    ensures r != [] ==> !IsWhiteSpace(r[0]) && !IsWhiteSpace(r[|r| - 1])
  {
    var n := |s| - |t|;
    if r == [] {
      assert t[|r|..] == s[n..];
      AllWhiteSpaceSplit(s, n);
    } else {
      assert r[0] == t[0];
      assert s[n] == t[0];
    }
  }

  /** `trim` cuts one contiguous slice out of `s`, with only white space around it. */
  lemma TrimIsSlice(s: string)
    ensures exists i, j {:trigger s[i..j]} :: 0 <= i <= j <= |s| && Trim(s) == s[i..j]
                          && AllWhiteSpace(s[..i]) && AllWhiteSpace(s[j..])
  {
    var t := TrimStart(s);
    var r := TrimEnd(t);
    var i := |s| - |t|;
    var j := i + |r|;
    assert t == s[i..];
    assert r == s[i..j];
    assert s[j..] == t[|r|..];
  }

  predicate IsDigit(c: char)
  {
    '0' <= c <= '9'
  }

  function DigitChar(d: int): (c: char)
    requires 0 <= d < 10
    ensures IsDigit(c)
  {
    ('0' as int + d) as char
  }

  function DigitValue(c: char): int
    requires IsDigit(c)
  {
    c as int - '0' as int
  }

  /** Decimal text of a natural number, without leading zeros. */
  function NatToString(n: nat): (r: string)
    ensures r != []
    ensures forall i :: 0 <= i < |r| ==> IsDigit(r[i])
  {
    if n < 10 then [DigitChar(n)] else NatToString(n / 10) + [DigitChar(n % 10)]
  }

  /** The text of an integer interpolated into a template string. */
  function IntToString(n: int): (r: string)
    ensures r != []
    ensures forall i :: 0 <= i < |r| ==> IsDigit(r[i]) || (i == 0 && r[i] == '-')
  {
    if n < 0 then "-" + NatToString(-n) else NatToString(n)
  }

  /** Reads a non-empty run of decimal digits; anything else is `None`. */
  function ParseNat(s: string): (r: Option<int>)
    ensures r.Some? ==> r.value >= 0
  {
    if |s| == 0 || !IsDigit(s[|s| - 1]) then None
    else if |s| == 1 then Some(DigitValue(s[0]))
    else match ParseNat(s[..|s| - 1])
      case None => None
      case Some(p) => Some(p * 10 + DigitValue(s[|s| - 1]))
  }

  /** Reads an optionally negative decimal integer. */
  function ParseInt(s: string): Option<int>
  {
    if |s| > 0 && s[0] == '-' then
      match ParseNat(s[1..])
      case None => None
      case Some(p) => Some(-p)
    else ParseNat(s)
  }

  lemma {:induction false} ParseNatToString(n: nat)
    ensures ParseNat(NatToString(n)) == Some(n)
  {
    if n >= 10 {
      var s := NatToString(n);
      var front := NatToString(n / 10);
      assert s[..|s| - 1] == front;
      ParseNatToString(n / 10);
    }
  }

  /** The decimal text of every integer reads back as that integer. */
  lemma IntToStringRoundTrip(n: int)
    ensures ParseInt(IntToString(n)) == Some(n)
  {
    if n < 0 {
      var d := NatToString(-n);
      ParseNatToString(-n);
      assert d[0] != '-' by { assert IsDigit(d[0]); }
      NegativeText(d);
    } else {
      ParseNatToString(n);
      assert IsDigit(NatToString(n)[0]);
    }
  }

  lemma NegativeText(d: string)
    requires d != [] && d[0] != '-'
    ensures ParseInt("-" + d) == match ParseNat(d) case None => None case Some(p) => Some(-p)
  {
    assert ("-" + d)[1..] == d;
  }

  /** Index of the first `c` in `s`, or `|s|` when there is none. */
  function IndexOf(s: string, c: char): (i: nat)
    ensures i <= |s|
    ensures i < |s| ==> s[i] == c
    ensures forall k :: 0 <= k < i ==> s[k] != c
  {
    if |s| == 0 then 0 else if s[0] == c then 0 else 1 + IndexOf(s[1..], c)
  }

  lemma {:induction false} IndexOfAfter(a: string, b: string, c: char)
    requires c !in a
    ensures IndexOf(a + b, c) == |a| + IndexOf(b, c)
  {
    if |a| == 0 {
      assert a + b == b;
    } else {
      assert (a + b)[0] == a[0] && a[0] != c;
      assert (a + b)[1..] == a[1..] + b;
      IndexOfAfter(a[1..], b, c);
    }
  }
}
