/**
 * String helpers the upload step relies on: the suffix test of
 * `strings.HasSuffix`, the decimal rendering of `%d`, and the last path
 * element as `filepath.Base` computes it on a Unix host.
 */
module Text {
  import opened Wrappers

  /** `strings.HasSuffix`. */
  predicate HasSuffix(s: string, suffix: string) {
    |suffix| <= |s| && s[|s| - |suffix|..] == suffix
  }

  predicate HasPrefix(s: string, prefix: string) {
    |prefix| <= |s| && s[..|prefix|] == prefix
  }

  /** `s` has `suffix` exactly when it splits into some head followed by `suffix`. */
  lemma HasSuffixSplits(s: string, suffix: string)
    ensures HasSuffix(s, suffix) <==> |suffix| <= |s| && s[..|s| - |suffix|] + suffix == s
  {
    if |suffix| <= |s| {
      assert s == s[..|s| - |suffix|] + s[|s| - |suffix|..];
    }
  }

  /** A concatenation starts with its left part and ends with its right part. */
  lemma ConcatAffixes(a: string, b: string)
    ensures HasPrefix(a + b, a) && HasSuffix(a + b, b)
  {
    assert (a + b)[..|a|] == a;
    assert (a + b)[|a|..] == b;
  }

  /** Position of the first `c` in `s`, or `|s|` when there is none. */
  function IndexOf(s: string, c: char): (i: nat)
    ensures i <= |s|
    ensures c !in s[..i]
    ensures i < |s| ==> s[i] == c
  {
    if s == [] then 0
    else if s[0] == c then 0
    else
      var j := IndexOf(s[1..], c);
      assert s[..1 + j] == [s[0]] + s[1..][..j];
      1 + j
  }

  /** The first `c` in `a + b` is the head of `b` when `a` holds no `c`. */
  lemma IndexOfAfter(a: string, b: string, c: char)
    requires c !in a && |b| > 0 && b[0] == c
    ensures IndexOf(a + b, c) == |a|
  {
    assert (a + b)[..|a|] == a;
  }

  // ---------------------------------------------------------------------
  // Decimal numerals, as `fmt` prints an `int` with the `%d` verb.

  predicate IsDigit(c: char) {
    '0' <= c <= '9'
  }

  predicate AllDigits(s: string) {
    forall i :: 0 <= i < |s| ==> IsDigit(s[i])
  }

  function DigitChar(d: nat): (c: char)
    requires d < 10
    ensures IsDigit(c) && c as int - '0' as int == d
  {
    "0123456789"[d]
  }

  function DigitValue(c: char): (d: nat)
    requires IsDigit(c)
    ensures d < 10
  {
    c as int - '0' as int
  }

  /** The shortest decimal numeral of `n`: no sign, no leading zero. */
  function NatToDecimal(n: nat): (s: string)
    ensures |s| > 0 && AllDigits(s)
    ensures (s[0] == '0') == (n == 0)
    ensures ',' !in s && '\'' !in s
  {
    if n < 10 then [DigitChar(n)]
    else NatToDecimal(n / 10) + [DigitChar(n % 10)]
  }

  /** `%d`: a minus sign in front of a negative number. */
  function IntToDecimal(n: int): (s: string)
    ensures |s| > 0 && (s[0] == '-' <==> n < 0)
    ensures ',' !in s && '\'' !in s
  {
    if n < 0 then "-" + NatToDecimal(-n) else NatToDecimal(n)
  }

  function DigitsValue(s: string): nat
    requires AllDigits(s)
  {
    if s == [] then 0
    else DigitsValue(s[..|s| - 1]) * 10 + DigitValue(s[|s| - 1])
  }

  /** Reads back a numeral written by `IntToDecimal`. */
  function ParseInt(s: string): Option<int> {
    if |s| > 1 && s[0] == '-' && AllDigits(s[1..]) then Some(0 - DigitsValue(s[1..]))
    else if |s| > 0 && AllDigits(s) then Some(DigitsValue(s))
    else None
  }

  lemma {:induction false} NatToDecimalRoundTrip(n: nat)
    ensures DigitsValue(NatToDecimal(n)) == n
  {
    if n >= 10 {
      var s := NatToDecimal(n);
      assert s[..|s| - 1] == NatToDecimal(n / 10);
      NatToDecimalRoundTrip(n / 10);
    }
  }

  /** Every integer printed with `%d` reads back as itself. */
  lemma IntToDecimalRoundTrip(n: int)
    ensures ',' !in IntToDecimal(n)
    ensures ParseInt(IntToDecimal(n)) == Some(n)
  {
    if n < 0 {
      var d := NatToDecimal(-n);
      var s := "-" + d;
      assert s[1..] == d;
      NatToDecimalRoundTrip(-n);
      assert ParseInt(s) == Some(0 - DigitsValue(d));
    } else {
      NatToDecimalRoundTrip(n);
    }
  }

  // ---------------------------------------------------------------------
  // `filepath.Base` with '/' as the only separator and no volume names.

  function TrimTrailingSlashes(p: string): (t: string)
    ensures HasPrefix(p, t)
    ensures t == [] || t[|t| - 1] != '/'
    ensures forall i :: |t| <= i < |p| ==> p[i] == '/'
  {
    if |p| > 0 && p[|p| - 1] == '/' then TrimTrailingSlashes(p[..|p| - 1]) else p
  }

  /** The part of `p` after its last '/'. */
  function AfterLastSlash(p: string): (r: string)
    ensures HasSuffix(p, r)
    ensures '/' !in r
    ensures |r| < |p| ==> p[|p| - |r| - 1] == '/'
  {
    if p == [] then []
    else if p[|p| - 1] == '/' then []
    else
      var r := AfterLastSlash(p[..|p| - 1]);
      assert p[|p| - |r| - 1..] == p[..|p| - 1][|p| - 1 - |r|..] + [p[|p| - 1]];
      r + [p[|p| - 1]]
  }

  /**
   * The last element of `path`: trailing slashes are dropped first, the
   * empty path gives ".", and a path made only of slashes gives "/".
   */
  function Base(path: string): (b: string)
    ensures b != []
    ensures path != [] ==> '/' !in b || b == "/"
  {
    if path == [] then "."
    else
      var t := TrimTrailingSlashes(path);
      if t == [] then "/" else AfterLastSlash(t)
  }

  /**
   * For a path that does not end in '/', the base name is the non-empty
   * tail after the last '/', so it never holds a directory part.
   */
  lemma BaseIsLastElement(path: string)
    requires path != [] && path[|path| - 1] != '/'
    ensures var b := Base(path);
      b != [] && HasSuffix(path, b) && '/' !in b
      && (|b| < |path| ==> path[|path| - |b| - 1] == '/')
  {
  }

  /** A suffix without '/' (a file extension) survives taking the base name. */
  lemma {:induction false} BaseKeepsSuffix(path: string, ext: string)
    requires ext != [] && '/' !in ext && HasSuffix(path, ext)
    ensures HasSuffix(Base(path), ext)
  {
    assert path[|path| - 1] == ext[|ext| - 1];
    BaseIsLastElement(path);
    var b := Base(path);
    assert b[|b| - |ext|..] == path[|path| - |ext|..];
  }
}
