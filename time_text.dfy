/**
 * The little text formats the recurrence calculator of lib/recurrence.py reads
 * and writes: the `^\d+$` literal check on cron fields, `str()` of an integer
 * when a corrected expression is rebuilt, `strftime('%H:%M')` of the next run,
 * and the `HH:MM` local time read back from a tag.
 */
module TimeText {
  import opened Wrappers

  predicate IsDigit(c: char) {
    '0' <= c <= '9'
  }

  /** `re.match(r'^\d+$', s)`: a non-empty run of decimal digits. */
  predicate IsDigits(s: string) {
    |s| > 0 && forall i :: 0 <= i < |s| ==> IsDigit(s[i])
  }

  function DigitChar(d: nat): (c: char)
    requires d < 10
    ensures IsDigit(c)
  {
    (('0' as int) + d) as char
  }

  function DigitValue(c: char): (d: nat)
    requires IsDigit(c)
    ensures d < 10
  {
    (c as int) - ('0' as int)
  }

  /** The number a string of decimal digits denotes (what `int()` of it gives). */
  function Value(s: string): nat
    requires forall i :: 0 <= i < |s| ==> IsDigit(s[i])
    decreases |s|
  {
    if s == [] then 0 else Value(s[..|s| - 1]) * 10 + DigitValue(s[|s| - 1])
  }

  /** `str(n)` for a non-negative integer: decimal, without leading zeros. */
  function Show(n: nat): (r: string)
    ensures IsDigits(r)
    ensures Value(r) == n
    ensures n > 0 ==> r[0] != '0'
    decreases n
  {
    if n < 10 then [DigitChar(n)]
    else
      var front := Show(n / 10);
      assert (front + [DigitChar(n % 10)])[..|front|] == front;
      front + [DigitChar(n % 10)]
  }

  /** `%02d`. */
  function TwoDigits(n: nat): string
    requires n < 100
  {
    [DigitChar(n / 10), DigitChar(n % 10)]
  }

  /** `strftime('%H:%M')` of a minute of the day. */
  function FormatHHMM(t: nat): (r: string)
    requires t < 24 * 60
  {
    TwoDigits(t / 60) + ":" + TwoDigits(t % 60)
  }

  /**
   * The hour and minute of a local-time tag as a minute of the day: two
   * digits, a colon, two digits, hour below 24 and minute below 60. None is
   * the case where the source's time parser raises.
   */
  function ParseHHMM(s: string): Option<nat> {
    if |s| == 5 && IsDigit(s[0]) && IsDigit(s[1]) && s[2] == ':' && IsDigit(s[3]) && IsDigit(s[4]) then
      var h := 10 * DigitValue(s[0]) + DigitValue(s[1]);
      var m := 10 * DigitValue(s[3]) + DigitValue(s[4]);
      if h < 24 && m < 60 then Some(h * 60 + m) else None
    else None
  }

  // ----- Lemmas -----

  /** Every minute of the day is read back from its `HH:MM` text. */
  lemma ParseFormatHHMM(t: nat)
    requires t < 24 * 60
    ensures ParseHHMM(FormatHHMM(t)) == Some(t)
  {
    var s := FormatHHMM(t);
    assert s[0] == DigitChar(t / 60 / 10) && s[1] == DigitChar(t / 60 % 10);
    assert s[3] == DigitChar(t % 60 / 10) && s[4] == DigitChar(t % 60 % 10);
  }

  /** A local time that parses is already in the canonical form `strftime` writes. */
  lemma FormatParseHHMM(s: string)
    requires ParseHHMM(s).Some?
    ensures ParseHHMM(s).value < 24 * 60
    ensures FormatHHMM(ParseHHMM(s).value) == s
  {
    var h := 10 * DigitValue(s[0]) + DigitValue(s[1]);
    var m := 10 * DigitValue(s[3]) + DigitValue(s[4]);
    var t := h * 60 + m;
    assert t / 60 == h && t % 60 == m;
    assert h / 10 == DigitValue(s[0]) && h % 10 == DigitValue(s[1]);
    assert m / 10 == DigitValue(s[3]) && m % 10 == DigitValue(s[4]);
    var r := FormatHHMM(t);
    assert |r| == 5;
    forall i | 0 <= i < 5 ensures r[i] == s[i] {
    }
  }
}
