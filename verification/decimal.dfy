/** Decimal rendering of natural numbers, as Python renders an integer inside an
    f-string, together with a parser, so that the `"<finished>/<total>"` progress text can be
    shown to determine both numbers uniquely. */
module Decimal {

  import opened Options

  predicate IsDigit(c: char)
  {
    '0' <= c <= '9'
  }

  predicate AllDigits(s: string)
  {
    forall i :: 0 <= i < |s| ==> IsDigit(s[i])
  }

  function DigitValue(c: char): (d: nat)
    requires IsDigit(c)
    ensures d < 10
  {
    c as int - '0' as int
  }

  function DigitChar(d: nat): (c: char)
    requires d < 10
    ensures IsDigit(c) && DigitValue(c) == d
  {
    ('0' as int + d) as char
  }

  /** Most significant digit first, no sign, no leading zero except for 0 itself. */
  function NatToDecimal(n: nat): (s: string)
    ensures |s| >= 1
    ensures AllDigits(s)
    ensures s[0] == '0' ==> n == 0
    ensures |s| > 1 ==> s[0] != '0'
    ensures n == 0 ==> s == "0"
    decreases n
  {
    if n < 10 then [DigitChar(n)] else NatToDecimal(n / 10) + [DigitChar(n % 10)]
  }

  /** The number a string of decimal digits denotes (0 for the empty string). */
  function DecimalValue(s: string): nat
    requires AllDigits(s)
  {
    if |s| == 0 then 0 else 10 * DecimalValue(s[..|s| - 1]) + DigitValue(s[|s| - 1])
  }

  lemma {:induction false} DecimalRoundTrip(n: nat)
    ensures DecimalValue(NatToDecimal(n)) == n
    decreases n
  {
    var s := NatToDecimal(n);
    if n < 10 {
      assert s[..|s| - 1] == [];
    } else {
      assert s[..|s| - 1] == NatToDecimal(n / 10);
      DecimalRoundTrip(n / 10);
    }
  }

  /** Index of the first occurrence of `c` in `s`, or `|s|` when there is none. */
  function IndexOf(s: string, c: char): (i: nat)
    ensures i <= |s|
    ensures i < |s| ==> s[i] == c
    ensures forall j :: 0 <= j < i ==> s[j] != c
  {
    if |s| == 0 then 0
    else if s[0] == c then 0
    else 1 + IndexOf(s[1..], c)
  }

  /** The progress text `"<finished>/<total>"`, which reads back as the two counts. */
  function FormatProgress(finished: nat, total: nat): (s: string)
    ensures ParseProgress(s) == Some((finished, total))
  {
    ProgressRoundTrip(finished, total);
    NatToDecimal(finished) + "/" + NatToDecimal(total)
  }

  /** Reads back a progress text: two non-empty digit runs separated by the first '/'. */
  function ParseProgress(s: string): Option<(nat, nat)>
  {
    var i := IndexOf(s, '/');
    if i < |s| && 0 < i && i + 1 < |s| && AllDigits(s[..i]) && AllDigits(s[i + 1..]) then
      Some((DecimalValue(s[..i]), DecimalValue(s[i + 1..])))
    else
      None
  }

  /** The two renderings joined by '/' read back as the two numbers. */
  lemma ProgressRoundTrip(finished: nat, total: nat)
    ensures ParseProgress(NatToDecimal(finished) + "/" + NatToDecimal(total)) == Some((finished, total))
  {
    var a, b := NatToDecimal(finished), NatToDecimal(total);
    var s := a + "/" + b;
    assert s[|a|] == '/';
    var i := IndexOf(s, '/');
    assert i == |a|;
    assert s[..i] == a;
    assert s[i + 1..] == b;
    DecimalRoundTrip(finished);
    DecimalRoundTrip(total);
  }

  /** Two progress texts are equal only when both counts are. */
  lemma FormatProgressInjective(f1: nat, t1: nat, f2: nat, t2: nat)
    requires FormatProgress(f1, t1) == FormatProgress(f2, t2)
    ensures f1 == f2 && t1 == t2
  {
  }

}
