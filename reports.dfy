/** The two cell formatters of the reports table. */
module Reports {
  import opened Common
  import opened Text
  import opened Clock

  /** `formatMinutes`: a falsy value (missing, null or zero) is `00:00`;
      otherwise the hours `Math.floor(mins / 60)` and the minutes `mins % 60`,
      each padded to two characters with `0`, joined by `:`. Dafny's `/` by a
      positive divisor already rounds down, as `Math.floor` does; the JavaScript
      remainder takes the sign of `mins`. */
  function FormatMinutes(mins: Option<int>): (s: string)
    ensures mins.None? || mins.value == 0 ==> s == "00:00"
  {
    if mins.None? || mins.value == 0 then "00:00"
    else
      var h := mins.value / 60;
      var m := TruncRem(mins.value, 60);
      PadStart(IntToString(h), 2, '0') + ":" + PadStart(IntToString(m), 2, '0')
  }

  /** A non-negative number padded to two places with `0`. */
  function Padded(n: nat): string
  {
    PadStart(NatToString(n), 2, '0')
  }

  /** Padding keeps digits only and the value, and gives at least two
      characters, exactly two below 100. */
  lemma PaddedDigits(n: nat)
    ensures var p := Padded(n);
      && AllDigits(p) && ParseNat(p) == n && |p| >= 2
      && (n < 100 <==> |p| == 2)
  {
    var s := NatToString(n);
    ParseNatToString(n);
    NatToStringLength(n, 2);
    if |s| < 2 {
      assert |s| == 1;
      assert Repeat('0', 1) == "0";
      ParseNatLeadingZero(s);
    }
  }

  /** On a non-negative number both parts are padded decimal numbers. */
  lemma FormatNonNegative(mins: nat)
    ensures FormatMinutes(Some(mins)) == Padded(mins / 60) + ":" + Padded(mins % 60)
  {
    if mins == 0 {
      assert NatToString(0) == "0";
      assert Padded(0) == "00";
    }
  }

  /** For a non-negative number of minutes the text splits at `:` into two digit
      strings, the second exactly two long and below 60, that give the number back
      as hours times sixty plus minutes. */
  lemma FormatMinutesRoundTrip(mins: nat)
    ensures var parts := Split(FormatMinutes(Some(mins)), ':');
      && |parts| == 2 && AllDigits(parts[0]) && AllDigits(parts[1])
      && |parts[1]| == 2 && ParseNat(parts[1]) < 60
      && ParseNat(parts[0]) * 60 + ParseNat(parts[1]) == mins
  {
    var hs, ms := Padded(mins / 60), Padded(mins % 60);
    PaddedDigits(mins / 60);
    PaddedDigits(mins % 60);
    FormatNonNegative(mins);
    SplitPair(hs, ms, ':');
  }

  /** Below 100 hours the text is always five characters with `:` in the
      middle; from 6000 minutes on, the hours take three or more digits. */
  lemma FormatMinutesWidth(mins: nat)
    ensures mins < 6000 ==> |FormatMinutes(Some(mins))| == 5 && FormatMinutes(Some(mins))[2] == ':'
    ensures mins >= 6000 ==> |FormatMinutes(Some(mins))| > 5
  {
    PaddedDigits(mins / 60);
    PaddedDigits(mins % 60);
    FormatNonNegative(mins);
  }

  /** A negative figure keeps a sign in both parts: five minutes under zero read
      as `-1:-5`. */
  lemma NegativeMinutesShowBothSigns()
    ensures FormatMinutes(Some(-5)) == "-1:-5"
  {
    assert NatToString(1) == "1" && NatToString(5) == "5";
  }

  /** `formatTime`: a missing or empty timestamp is `--:--`; any other is the
      hour and minute `render` gives for it. */
  function FormatTime(iso: Option<string>, render: string -> string): (r: string)
    ensures iso.None? || iso.value == "" ==> r == "--:--"
    ensures iso.Some? && iso.value != "" ==> r == render(iso.value)
  {
    if iso.None? || iso.value == "" then "--:--" else render(iso.value)
  }
}
