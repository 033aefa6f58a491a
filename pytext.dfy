/**
 * Python's `str()` of an integer, as used to build the keys of the
 * indexed accessors (`'lat_%s' % i`) and in range messages.
 */
module PyText {

  predicate IsDigit(c: char) {
    '0' <= c <= '9'
  }

  function DigitChar(d: nat): (c: char)
    requires d < 10
    ensures IsDigit(c) && DigitValue(c) == d
  {
    "0123456789"[d]
  }

  function DigitValue(c: char): nat
    requires IsDigit(c)
  {
    c as int - '0' as int
  }

  /** Decimal digits of `n`, most significant first, no leading zero. */
  function NatStr(n: nat): (s: string)
    ensures |s| >= 1
    ensures forall k :: 0 <= k < |s| ==> IsDigit(s[k])
    ensures |s| > 1 ==> s[0] != '0'
    decreases n
  {
    if n < 10 then [DigitChar(n)] else NatStr(n / 10) + [DigitChar(n % 10)]
  }

  /** `str(i)` for a Python int. */
  function IntStr(i: int): (s: string)
    ensures |s| >= 1
    ensures forall k :: 0 <= k < |s| ==> s[k] == '-' || IsDigit(s[k])
    ensures (s[0] == '-') <==> i < 0
  {
    if i < 0 then "-" + NatStr(-i) else NatStr(i)
  }

  /** Reads back a non-empty digit string (the inverse of NatStr). */
  function ParseNat(s: string): nat
    requires |s| >= 1
    requires forall k :: 0 <= k < |s| ==> IsDigit(s[k])
  {
    if |s| == 1 then DigitValue(s[0])
    else 10 * ParseNat(s[..|s| - 1]) + DigitValue(s[|s| - 1])
  }

  lemma {:induction false} ParseNatStr(n: nat)
    ensures ParseNat(NatStr(n)) == n
    decreases n
  {
    if n >= 10 {
      var s := NatStr(n);
      assert s[..|s| - 1] == NatStr(n / 10);
      ParseNatStr(n / 10);
    }
  }

  /** Different integers print differently. */
  lemma IntStrInjective(i: int, j: int)
    requires IntStr(i) == IntStr(j)
    ensures i == j
  {
    if i < 0 {
      assert IntStr(i)[1..] == NatStr(-i);
      assert IntStr(j)[1..] == NatStr(-j);
      ParseNatStr(-i);
      ParseNatStr(-j);
    } else {
      ParseNatStr(i);
      ParseNatStr(j);
    }
  }
}
