/** String helpers: taking a fixed wrapper off a command, and Python's `str` of an `int`. */
module Text {

  import opened Wrappers

  /** The text between `pre` and `post` when `s` is exactly `pre`, something, `post`. */
  function Strip(s: string, pre: string, post: string): (r: Option<string>)
    ensures r.Some? ==> s == pre + r.value + post
    ensures r.None? ==> !(|pre| + |post| <= |s| && pre <= s && s[|s| - |post|..] == post)
  {
    if |pre| + |post| <= |s| && pre <= s && s[|s| - |post|..] == post then
      assert s == s[..|pre|] + s[|pre|..|s| - |post|] + s[|s| - |post|..];
      Some(s[|pre|..|s| - |post|])
    else None
  }

  /** Wrapping `x` in `pre` and `post` and stripping them again gives back `x`. */
  lemma StripWrapped(pre: string, x: string, post: string)
    ensures Strip(pre + x + post, pre, post) == Some(x)
  {
    var s := pre + x + post;
    assert pre <= s;
    assert s[|s| - |post|..] == post;
    assert s[|pre|..|s| - |post|] == x;
  }

  function DigitChar(d: nat): (c: char)
    requires d < 10
    ensures '0' <= c <= '9'
  {
    "0123456789"[d]
  }

  function DigitValue(c: char): nat
  {
    if '0' <= c <= '9' then (c as int - '0' as int) as nat else 0
  }

  /** Decimal digits of `n` without leading zeros. */
  function NatDecimal(n: nat): (r: string)
    ensures r != []
    ensures forall i :: 0 <= i < |r| ==> '0' <= r[i] <= '9'
    decreases n
  {
    if n < 10 then [DigitChar(n)] else NatDecimal(n / 10) + [DigitChar(n % 10)]
  }

  /** `str(n)` for a Python `int`, e.g. the exit code -9 of a child killed by SIGKILL. */
  function Decimal(n: int): string
  {
    if n < 0 then "-" + NatDecimal(-n) else NatDecimal(n)
  }

  function ParseNat(s: string): nat
    decreases |s|
  {
    if s == [] then 0 else 10 * ParseNat(s[..|s| - 1]) + DigitValue(s[|s| - 1])
  }

  /** `int(s)` on what `Decimal` produces. */
  function ParseInt(s: string): int
  {
    if s != [] && s[0] == '-' then -(ParseNat(s[1..]) as int) else ParseNat(s)
  }

  lemma {:induction false} ParseNatDecimal(n: nat)
    ensures ParseNat(NatDecimal(n)) == n
    decreases n
  {
    var r := NatDecimal(n);
    if n >= 10 {
      ParseNatDecimal(n / 10);
      assert r[..|r| - 1] == NatDecimal(n / 10);
      assert DigitValue(r[|r| - 1]) == n % 10;
    } else {
      assert DigitValue(r[0]) == n;
    }
  }

  /** The exit code printed into a failure message can be read back from it exactly. */
  lemma DecimalRoundTrip(n: int)
    ensures ParseInt(Decimal(n)) == n
  {
    if n < 0 {
      var m: nat := -n;
      ParseNatDecimal(m);
      assert Decimal(n) == "-" + NatDecimal(m);
      assert Decimal(n)[1..] == NatDecimal(m);
    } else {
      ParseNatDecimal(n);
      assert '0' <= NatDecimal(n)[0] <= '9';
    }
  }

}
