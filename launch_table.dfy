/** The stand-alone launch table component: status text and colour, row
    numbering and the `HH:MM` part of the launch time. */
module LaunchTable {
  import opened Records

  /** `getStatusText`: strict comparisons against `true`, `null` and `false`,
      with the empty string for anything else. */
  function StatusText(s: Status): (r: string)
    ensures r == "Success" <==> s == True
    ensures r == "Upcoming" <==> s == Null
    ensures r == "Failed" <==> s == False
    ensures r == "" <==> s.Other?
  {
    if s == True then "Success"
    else if s == Null then "Upcoming"
    else if s == False then "Failed"
    else ""
  }

  /** `getStatusColor`: `null` is tested strictly first, then `== true` loosely,
      then `=== false`. */
  function StatusColor(s: Status): (r: string)
    ensures r == "#FEF3C7" <==> s == Null
    ensures r == "#DEF7EC" <==> LooselyTrue(s)
    ensures r == "#FDE2E1" <==> s == False
    ensures r == "transparent" <==> s.Other? && !s.looseTrue
  {
    if s == Null then "#FEF3C7"
    else if LooselyTrue(s) then "#DEF7EC"
    else if s == False then "#FDE2E1"
    else "transparent"
  }

  /** The three statuses the API sends are told apart by both their text and
      their colour, and none of them gets an empty text or a transparent box. */
  lemma KnownStatusesDistinguishable(s: Status, t: Status)
    requires !s.Other? && !t.Other? && s != t
    ensures StatusText(s) != StatusText(t) && StatusColor(s) != StatusColor(t)
    ensures StatusText(s) != "" && StatusColor(s) != "transparent"
  {
  }

  // ---- formatTime: `getHours().toString().padStart(2, '0')` and likewise for minutes

  predicate IsDigit(c: char)
  {
    '0' <= c <= '9'
  }

  predicate AllDigits(s: string)
  {
    forall i :: 0 <= i < |s| ==> IsDigit(s[i])
  }

  function Digit(d: nat): (c: char)
    requires d < 10
    ensures IsDigit(c)
  {
    ('0' as int + d) as char
  }

  function DigitValue(c: char): (d: nat)
    requires IsDigit(c)
    ensures d < 10
  {
    c as int - '0' as int
  }

  /** `Number.prototype.toString()` for a non-negative integer below 10^21 (from
      there on JavaScript switches to exponent notation; the hours and minutes
      passed here are far below that): its decimal digits, most significant
      first, with no leading zero. */
  function DecimalString(n: nat): (r: string)
    ensures |r| >= 1 && AllDigits(r)
    ensures |r| == 1 <==> n < 10
    ensures n >= 10 ==> r[0] != '0'
    decreases n
  {
    if n < 10 then [Digit(n)] else DecimalString(n / 10) + [Digit(n % 10)]
  }

  /** Reading a string of decimal digits back as a number. */
  function DecimalValue(s: string): nat
    requires AllDigits(s)
    decreases |s|
  {
    if s == [] then 0 else DecimalValue(s[..|s| - 1]) * 10 + DigitValue(s[|s| - 1])
  }

  /** `toString` loses nothing: the digits it writes read back as the number. */
  lemma {:induction false} DecimalRoundTrip(n: nat)
    ensures DecimalValue(DecimalString(n)) == n
    decreases n
  {
    if n >= 10 {
      DecimalRoundTrip(n / 10);
      var s := DecimalString(n);
      assert s[..|s| - 1] == DecimalString(n / 10);
    }
  }

  /** `String.prototype.padStart(width, fill)` with a one-character fill: pads
      on the left up to `width` characters and never truncates. */
  function PadStart(s: string, width: nat, fill: char): (r: string)
    ensures |r| == if |s| >= width then |s| else width
    ensures forall i :: 0 <= i < |r| - |s| ==> r[i] == fill
  {
    if |s| >= width then s else seq(width - |s|, _ => fill) + s
  }

  /** Padding only adds characters in front: the string itself ends the result. */
  lemma PadStartEndsWithString(s: string, width: nat, fill: char)
    ensures var r := PadStart(s, width, fill); r[|r| - |s|..] == s
  {
  }

  /** Zero padding keeps a string of digits a string of digits. */
  lemma PadStartKeepsDigits(s: string, width: nat)
    requires AllDigits(s)
    ensures AllDigits(PadStart(s, width, '0'))
  {
  }

  /** The `${hours}:${minutes}` string built by `formatTime`, given the hours and
      minutes that `Date.getHours` and `Date.getMinutes` return. */
  function FormatTime(hours: nat, minutes: nat): (t: string)
    ensures |t| >= 5
    ensures forall i :: 0 <= i < |t| ==> IsDigit(t[i]) || t[i] == ':'
  {
    var hh := PadStart(DecimalString(hours), 2, '0');
    var mm := PadStart(DecimalString(minutes), 2, '0');
    PadStartKeepsDigits(DecimalString(hours), 2);
    PadStartKeepsDigits(DecimalString(minutes), 2);
    hh + ":" + mm
  }

  /** The padded form of a number below 100: its tens digit, then its units digit. */
  function TwoDigits(n: nat): (r: string)
    requires n < 100
    ensures |r| == 2 && AllDigits(r)
  {
    [Digit(n / 10), Digit(n % 10)]
  }

  /** `n.toString().padStart(2, '0')` for a number below 100. */
  lemma PadTwoDigits(n: nat)
    requires n < 100
    ensures PadStart(DecimalString(n), 2, '0') == TwoDigits(n)
  {
  }

  /** The two padded digits read back as the number. */
  lemma {:induction false} TwoDigitsRoundTrip(n: nat)
    requires n < 100
    ensures DecimalValue(TwoDigits(n)) == n
  {
    var s := TwoDigits(n);
    assert s[..1] == [Digit(n / 10)];
    assert [Digit(n / 10)][..0] == [];
    assert DecimalValue([Digit(n / 10)]) == n / 10;
  }

  /** Any hour below 100 (so every hour from 0 to 23) and any minute below 100
      (so every minute from 0 to 59) come out as exactly `HH:MM`: five
      characters, two zero-padded digits on each side of a colon. */
  lemma FormatTimeShape(hours: nat, minutes: nat)
    requires hours < 100 && minutes < 100
    ensures FormatTime(hours, minutes) == TwoDigits(hours) + ":" + TwoDigits(minutes)
    ensures |FormatTime(hours, minutes)| == 5 && FormatTime(hours, minutes)[2] == ':'
  {
    PadTwoDigits(hours);
    PadTwoDigits(minutes);
  }

  /** The two fields of `HH:MM` read back as the hours and minutes. */
  lemma FormatTimeRoundTrip(hours: nat, minutes: nat)
    requires hours < 100 && minutes < 100
    ensures var t := FormatTime(hours, minutes);
            |t| == 5 && AllDigits(t[..2]) && AllDigits(t[3..]) &&
            DecimalValue(t[..2]) == hours && DecimalValue(t[3..]) == minutes
  {
    FormatTimeShape(hours, minutes);
    var hh, mm := TwoDigits(hours), TwoDigits(minutes);
    var t := hh + ":" + mm;
    assert t[..2] == hh;
    assert t[3..] == mm;
    TwoDigitsRoundTrip(hours);
    TwoDigitsRoundTrip(minutes);
  }
}
