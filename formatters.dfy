/**
 * Minute and plural formatting (lib/formatters.ts), with a reader for the minute format
 * that shows the rendering loses nothing.
 */
module Formatters {
  import opened Wrappers
  import opened JsText

  /** JavaScript's `%`: the remainder takes the sign of the dividend. */
  function JsRemainder(a: int, b: int): (r: int)
    requires b > 0
    ensures a >= 0 ==> r == a % b
    ensures a < 0 ==> -b < r <= 0 && r == -((-a) % b)
  {
    if a >= 0 then a % b else -((-a) % b)
  }

  /** formatMinutes: "0m", "<m>m", "<h>h" or "<h>h <m>m". Hours are `Math.floor(minutes / 60)`,
      which Dafny's division by a positive divisor already is. */
  function FormatMinutes(minutes: int): (s: string)
    ensures minutes == 0 ==> s == "0m"
    ensures 0 < minutes < 60 ==> s == NatToString(minutes) + "m"
    ensures minutes > 0 && minutes % 60 == 0 ==> s == NatToString(minutes / 60) + "h"
    ensures minutes > 60 && minutes % 60 != 0 ==>
              s == NatToString(minutes / 60) + "h " + NatToString(minutes % 60) + "m"
  {
    if minutes == 0 then "0m"
    else
      var hours := minutes / 60;
      var mins := JsRemainder(minutes, 60);
      if hours == 0 then IntToString(mins) + "m"
      else if mins == 0 then IntToString(hours) + "h"
      else IntToString(hours) + "h " + IntToString(mins) + "m"
  }

  /** Reads a duration written as "<m>m", "<h>h" or "<h>h <m>m" back into minutes. */
  function ParseMinutes(s: string): Option<nat> {
    var n := DigitPrefixLength(s);
    if n == 0 then None else ParseUnits(DigitsValue(s[..n]), s[n..])
  }

  /** The unit part of a duration, after its leading number `lead`. */
  function ParseUnits(lead: nat, rest: string): Option<nat> {
    if rest == MinuteUnit then Some(lead)
    else if rest == HourUnit then Some(60 * lead)
    else if |rest| >= 4 && rest[..2] == HourSeparator && rest[|rest| - 1] == 'm' && AllDigits(rest[2..|rest| - 1])
      then Some(60 * lead + DigitsValue(rest[2..|rest| - 1]))
    else None
  }

  const MinuteUnit: string := "m"
  const HourUnit: string := "h"
  const HourSeparator: string := "h "

  /** A rendered number followed by a unit part is read as that number and that unit part. */
  lemma ParseNumberThen(v: nat, rest: string)
    requires rest != [] && !IsDigit(rest[0])
    ensures ParseMinutes(NatToString(v) + rest) == ParseUnits(v, rest)
  {
    var d := NatToString(v);
    var s := d + rest;
    DigitPrefixOfDigitsThen(d, rest);
    assert s[..|d|] == d && s[|d|..] == rest;
    DigitsValueOfNatToString(v);
  }

  lemma ParseMinutesOnly(v: nat)
    ensures ParseMinutes(NatToString(v) + MinuteUnit) == Some(v)
  {
    ParseNumberThen(v, MinuteUnit);
  }

  lemma ParseHoursOnly(v: nat)
    ensures ParseMinutes(NatToString(v) + HourUnit) == Some(60 * v)
  {
    ParseNumberThen(v, HourUnit);
  }

  /** The unit part "h <m>m" is read as the hours multiplier plus `m` minutes. */
  lemma ParseHoursTail(lead: nat, m: nat)
    ensures ParseUnits(lead, HourSeparator + NatToString(m) + MinuteUnit) == Some(60 * lead + m)
  {
    var e := NatToString(m);
    var tail := HourSeparator + e + MinuteUnit;
    assert tail[..2] == HourSeparator;
    assert tail[2..|tail| - 1] == e;
    assert tail != MinuteUnit && tail != HourUnit;
    DigitsValueOfNatToString(m);
  }

  lemma ParseHoursAndMinutes(h: nat, m: nat)
    ensures ParseMinutes(NatToString(h) + HourSeparator + NatToString(m) + MinuteUnit) == Some(60 * h + m)
  {
    var d := NatToString(h);
    var tail := HourSeparator + NatToString(m) + MinuteUnit;
    assert d + HourSeparator + NatToString(m) + MinuteUnit == d + tail;
    assert tail[0] == 'h';
    ParseNumberThen(h, tail);
    ParseHoursTail(h, m);
  }

  /** Every non-negative number of minutes is read back from its rendering. */
  lemma FormatMinutesRoundTrip(minutes: nat)
    ensures ParseMinutes(FormatMinutes(minutes)) == Some(minutes)
  {
    var s := FormatMinutes(minutes);
    if minutes == 0 {
      assert s == NatToString(0) + MinuteUnit;
      ParseMinutesOnly(0);
    } else if minutes < 60 {
      assert s == NatToString(minutes) + MinuteUnit;
      ParseMinutesOnly(minutes);
    } else if minutes % 60 == 0 {
      assert s == NatToString(minutes / 60) + HourUnit;
      ParseHoursOnly(minutes / 60);
    } else {
      assert s == NatToString(minutes / 60) + HourSeparator + NatToString(minutes % 60) + MinuteUnit;
      ParseHoursAndMinutes(minutes / 60, minutes % 60);
    }
  }

  /** pluralize: "<count> <word>", the word singular only for a count of exactly 1.
      An empty plural counts as none given. */
  function Pluralize(count: int, singular: string, plural: Option<string>): (s: string)
    ensures count == 1 ==> s == "1 " + singular
    ensures count != 1 && plural.Some? && plural.value != "" ==> s == IntToString(count) + " " + plural.value
    ensures count != 1 && (plural.None? || plural.value == "") ==> s == IntToString(count) + " " + singular + "s"
  {
    if count == 1 then IntToString(count) + " " + singular
    else
      var word := if plural.Some? && plural.value != "" then plural.value else singular + "s";
      IntToString(count) + " " + word
  }
}
