/** The song section's `m:ss` time label and its background-size choice. */
module SongSection {
  import opened JsNumber

  /** An audio element's time in seconds as the label receives it: `NaN` before
      the metadata has loaded, otherwise a whole number of seconds. */
  datatype Seconds = NaN | Secs(n: nat)

  /** `("0" + x).slice(-2)`: the last two characters. */
  function LastTwo(s: string): (r: string)
    ensures |s| >= 2 ==> r == s[|s| - 2..]
    ensures |s| < 2 ==> r == s
  {
    if |s| < 2 then s else s[|s| - 2..]
  }

  /** The seconds field: `("0" + ((s | 0) % 60)).slice(-2)`. */
  function SecondsField(n: nat): string
  {
    LastTwo("0" + IntToString(JsRem(ToInt32(n), 60)))
  }

  /** `fmt(s)`: `0:00` for NaN, otherwise whole minutes, a colon and the seconds field. */
  function Fmt(s: Seconds): (text: string)
    ensures s.NaN? ==> text == "0:00"
    ensures |text| >= 4 && text[|text| - 3] == ':'
  {
    match s
    case NaN => "0:00"
    case Secs(n) => NatToString(n / 60) + ":" + SecondsField(n)
  }

  /** A number below 100 as exactly two decimal digits. */
  function TwoDigits(r: nat): (s: string)
    requires r < 100
    ensures |s| == 2 && IsDigit(s[0]) && IsDigit(s[1])
    ensures DigitValue(s[0]) * 10 + DigitValue(s[1]) == r
  {
    [DigitChar(r / 10), DigitChar(r % 10)]
  }

  /** Below 2^31 seconds the conversion to 32 bits is exact and the field is
      `n % 60` as two digits, padded with a zero. */
  lemma SecondsFieldDigits(n: nat)
    requires n < TwoTo31
    ensures SecondsField(n) == TwoDigits(n % 60)
  {
    var r := n % 60;
    assert JsRem(ToInt32(n), 60) == r;
    if r >= 10 {
      assert NatToString(r) == NatToString(r / 10) + [DigitChar(r % 10)];
    }
  }

  /** Before the metadata loads, and at the start, the label reads `0:00`. */
  lemma FmtStartsAtZero()
    ensures Fmt(NaN) == "0:00"
    ensures Fmt(Secs(0)) == "0:00"
  {
    SecondsFieldDigits(0);
  }

  /** The label of n seconds ends in a colon and exactly two digits below 60,
      and reading it back gives minutes = n div 60 and
      minutes * 60 + seconds = n. */
  lemma FmtReadsBack(n: nat)
    requires n < TwoTo31
    ensures var f := Fmt(Secs(n));
            |f| >= 4 && f[|f| - 3] == ':' &&
            IsDigit(f[|f| - 2]) && IsDigit(f[|f| - 1]) && DigitValue(f[|f| - 2]) < 6 &&
            (forall i :: 0 <= i < |f| - 3 ==> IsDigit(f[i])) &&
            ParseNat(f[..|f| - 3]) == n / 60 &&
            ParseNat(f[..|f| - 3]) * 60 + DigitValue(f[|f| - 2]) * 10 + DigitValue(f[|f| - 1]) == n
  {
    var m := NatToString(n / 60);
    var r := n % 60;
    var field := TwoDigits(r);
    SecondsFieldDigits(n);
    var f := Fmt(Secs(n));
    assert f == m + [':'] + field;
    assert f[..|f| - 3] == m;
    assert f[|f| - 2] == field[0] && f[|f| - 1] == field[1];
    ParseNatToString(n / 60);
  }

  /** From 2^31 seconds on, `| 0` wraps to a negative number and the seconds
      field shows a minus sign: 2^31 seconds end in `-8`. */
  lemma FmtWrapsPastInt32()
    ensures var f := Fmt(Secs(TwoTo31)); f[|f| - 2..] == "-8"
  {
    assert ToInt32(TwoTo31) == -TwoTo31;
    assert JsRem(-TwoTo31, 60) == -8;
    assert IntToString(-8) == "-8";
    assert SecondsField(TwoTo31) == "-8";
  }

  const ContainTop := "bg-contain bg-top"
  const Cover := "bg-cover"

  /** `bgMode`: two songs have artwork that must not be cropped. */
  function BgMode(title: string): (r: string)
    ensures r == ContainTop <==> title == "Adventure Awaits" || title == "Space Song"
    ensures r != ContainTop ==> r == Cover
  {
    if title == "Adventure Awaits" || title == "Space Song" then ContainTop else Cover
  }
}
