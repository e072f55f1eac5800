/** The string operations the engine and the reporter use to build messages. */
module Text {

  /** The decimal digit character for `d`. */
  function DigitChar(d: nat): (c: char)
    requires d < 10
    ensures '0' <= c <= '9'
  {
    "0123456789"[d]
  }

  /** The numeric value of a decimal digit character. */
  function DigitValue(c: char): (d: nat)
    requires '0' <= c <= '9'
    ensures d < 10
  {
    (c as int - '0' as int) as nat
  }

  predicate IsDigits(s: string) {
    forall i :: 0 <= i < |s| ==> '0' <= s[i] <= '9'
  }

  /** How a JavaScript template literal renders a non-negative safe integer
      (below 2^53): its decimal digits, no leading zero. */
  function NatToString(n: nat): (s: string)
    ensures |s| > 0 && IsDigits(s)
    ensures |s| > 1 ==> s[0] != '0'
    decreases n
  {
    if n < 10 then [DigitChar(n)] else NatToString(n / 10) + [DigitChar(n % 10)]
  }

  /** The value of a string of decimal digits. */
  function ParseDigits(s: string): nat
    requires IsDigits(s)
    decreases |s|
  {
    if |s| == 0 then 0 else ParseDigits(s[..|s| - 1]) * 10 + DigitValue(s[|s| - 1])
  }

  /** Reading the rendered digits back gives the number: the rendering loses nothing. */
  lemma {:induction false} NatToStringRoundTrip(n: nat)
    ensures ParseDigits(NatToString(n)) == n
    decreases n
  {
    var s := NatToString(n);
    if n >= 10 {
      NatToStringRoundTrip(n / 10);
      assert s[..|s| - 1] == NatToString(n / 10);
    }
  }

  /** Distinct numbers render as distinct strings. */
  lemma NatToStringInjective(m: nat, n: nat)
    requires NatToString(m) == NatToString(n)
    ensures m == n
  {
    NatToStringRoundTrip(m);
    NatToStringRoundTrip(n);
  }

  /** A number's rendering followed by text that starts with a non-digit can
      be read back: both the number and the text after it are determined. */
  lemma NatToStringDelimited(m: nat, n: nat, x: string, y: string)
    requires |x| > 0 && !('0' <= x[0] <= '9')
    requires |y| > 0 && !('0' <= y[0] <= '9')
    requires NatToString(m) + x == NatToString(n) + y
    ensures m == n && x == y
  {
    var a, b := NatToString(m), NatToString(n);
    assert a == (a + x)[..|a|];
    assert b == (b + y)[..|b|];
    NatToStringInjective(m, n);
    assert x == (a + x)[|a|..];
    assert y == (b + y)[|b|..];
  }

  /** A shared prefix cancels. */
  lemma PrefixCancels(prefix: string, a: string, b: string)
    requires prefix + a == prefix + b
    ensures a == b
  {
    assert a == (prefix + a)[|prefix|..];
    assert b == (prefix + b)[|prefix|..];
  }

  /** String concatenation regroups to the right. */
  lemma ConcatRegroups(a: string, b: string, c: string, d: string)
    ensures a + b + c + d == a + (b + (c + d))
  {
  }

  /** The same holds after a shared literal prefix and before a shared separator. */
  lemma NatToStringBetween(prefix: string, m: nat, n: nat, sep: string, x: string, y: string)
    requires |sep| > 0 && !('0' <= sep[0] <= '9')
    requires prefix + NatToString(m) + sep + x == prefix + NatToString(n) + sep + y
    ensures m == n && x == y
  {
    var s, t := NatToString(m), NatToString(n);
    ConcatRegroups(prefix, s, sep, x);
    ConcatRegroups(prefix, t, sep, y);
    PrefixCancels(prefix, s + (sep + x), t + (sep + y));
    NatToStringDelimited(m, n, sep + x, sep + y);
    PrefixCancels(sep, x, y);
  }

  /** JavaScript's `String.prototype.startsWith`. */
  predicate StartsWith(s: string, prefix: string) {
    |prefix| <= |s| && s[..|prefix|] == prefix
  }

  /** JavaScript's `Array.prototype.join(sep)` on an array of strings. */
  function Join(parts: seq<string>, sep: string): (r: string)
    ensures |parts| == 0 ==> r == ""
    ensures |parts| == 1 ==> r == parts[0]
    decreases |parts|
  {
    if |parts| == 0 then "" else if |parts| == 1 then parts[0] else parts[0] + sep + Join(parts[1..], sep)
  }

  /** Each part after the first is preceded by one separator: joining two
      non-empty lists joins their joins. */
  lemma {:induction false} JoinAppend(a: seq<string>, b: seq<string>, sep: string)
    requires |a| > 0 && |b| > 0
    ensures Join(a + b, sep) == Join(a, sep) + sep + Join(b, sep)
    decreases |a|
  {
    if |a| == 1 {
      assert (a + b)[1..] == b;
    } else {
      assert (a + b)[1..] == a[1..] + b;
      JoinAppend(a[1..], b, sep);
    }
  }
}
