// The scheduler's date-time strings: what parse_at_string accepts and refuses, and the
// instants of those that name their zone.
module Timestamp {
  import opened Calendar

  // A deadline of fail's messages: "invalid timestamp", the fraction's, the zone's
  datatype Failure = InvalidTimestamp | InvalidFraction | InvalidZone

  datatype Parsed<+T> = Good(value: T) | Bad(failure: Failure)

  // Zulu is "Z", or "z" if lower; Offset is what follows a sign.
  datatype Zone = Local | Zulu(lower: bool) | Offset(west: bool, hours: nat, minutes: nat)

  // fraction: the digits after the point, none if there is no point
  datatype Stamp = Stamp(
    date: Date, space: bool, hour: nat, minute: nat, second: nat, fraction: seq<nat>, zone: Zone)

  predicate ValidStamp(t: Stamp) {
    && 1 <= t.date.year <= 9999 && ValidDate(t.date)
    && t.hour <= 23 && t.minute <= 59 && t.second <= 59
    && |t.fraction| <= 3 && (forall i :: 0 <= i < |t.fraction| ==> t.fraction[i] <= 9)
    && (t.zone.Offset? ==> t.zone.hours <= 23 && t.zone.minutes <= 59)
  }

  // %d of a Lua pattern
  predicate IsDigit(c: char) {
    '0' <= c <= '9'
  }

  function Value(c: char): (v: nat)
    ensures IsDigit(c) ==> v <= 9 && Numeral(v) == c
  {
    if IsDigit(c) then c as int - '0' as int else 0
  }

  function Numeral(v: nat): (c: char)
    requires v <= 9
    ensures IsDigit(c) && c as int - '0' as int == v
  {
    (v + '0' as int) as char
  }

  predicate Digits(s: string, i: nat, n: nat) {
    i + n <= |s| && forall k :: i <= k < i + n ==> IsDigit(s[k])
  }

  function Two(s: string, i: nat): nat
    requires Digits(s, i, 2)
  {
    10 * Value(s[i]) + Value(s[i + 1])
  }

  // The first pattern, up to its captured tail
  predicate MainMatches(s: string) {
    && Digits(s, 0, 4) && |s| >= 19 && s[4] == '-' && Digits(s, 5, 2) && s[7] == '-' && Digits(s, 8, 2)
    && (s[10] == 'T' || s[10] == ' ') && Digits(s, 11, 2) && s[13] == ':' && Digits(s, 14, 2) && s[16] == ':'
    && Digits(s, 17, 2)
  }

  // How many digits s starts with
  function Run(s: string): (n: nat)
    ensures n <= |s| && Digits(s, 0, n) && (n < |s| ==> !IsDigit(s[n]))
    decreases |s|
  {
    if s == [] || !IsDigit(s[0]) then 0
    else
      var n := Run(s[1..]);
      assert forall k :: 1 <= k < n + 1 ==> s[k] == s[1..][k - 1];
      assert n + 1 < |s| ==> s[n + 1] == s[1..][n];
      n + 1
  }

  function Values(s: string, n: nat): (v: seq<nat>)
    requires Digits(s, 0, n)
    ensures |v| == n && forall i :: 0 <= i < n ==> v[i] == Value(s[i])
  {
    if n == 0 then [] else Values(s, n - 1) + [Value(s[n - 1])]
  }

  function ParseZone(tail: string): Parsed<Zone> {
    if tail == "" then Good(Local)
    else if tail == "Z" then Good(Zulu(false))
    else if tail == "z" then Good(Zulu(true))
    else if |tail| == 6 && (tail[0] == '+' || tail[0] == '-') && Digits(tail, 1, 2) && tail[3] == ':' && Digits(tail, 4, 2)
            && Two(tail, 1) <= 23 && Two(tail, 4) <= 59 then
      Good(Offset(tail[0] == '-', Two(tail, 1), Two(tail, 4)))
    else Bad(InvalidZone)
  }

  function ParseTail(tail: string): Parsed<(seq<nat>, Zone)> {
    if tail != "" && tail[0] == '.' then
      var n := Run(tail[1..]);
      if n == 0 || n > 3 then Bad(InvalidFraction)
      else
        match ParseZone(tail[1..][n..])
        case Good(zone) => Good((Values(tail[1..], n), zone))
        case Bad(e) => Bad(e)
    else
      match ParseZone(tail)
      case Good(zone) => Good(([], zone))
      case Bad(e) => Bad(e)
  }

  // parse_at_string up to the choice between zone and local time
  function Parse(s: string): Parsed<Stamp> {
    if !MainMatches(s) then Bad(InvalidTimestamp)
    else
      var year := 100 * Two(s, 0) + Two(s, 2);
      var (month, day, hour, minute, second) := (Two(s, 5), Two(s, 8), Two(s, 11), Two(s, 14), Two(s, 17));
      if year < 1 || month < 1 || month > 12 || day < 1 || day > DaysInMonth(year, month) || hour > 23 || minute > 59
         || second > 59 then Bad(InvalidTimestamp)
      else
        match ParseTail(s[19..])
        case Good((fraction, zone)) => Good(Stamp(Date(year, month, day), s[10] == ' ', hour, minute, second, fraction, zone))
        case Bad(e) => Bad(e)
  }

  // The string of a stamp

  function Print2(v: nat): (s: string)
    requires v <= 99
    ensures Digits(s, 0, 2) && |s| == 2 && Two(s, 0) == v
  {
    [Numeral(v / 10), Numeral(v % 10)]
  }

  function PrintMain(t: Stamp): (s: string)
    requires ValidStamp(t)
    ensures |s| == 19
  {
    assert t.date.day <= 31;
    Print2(t.date.year / 100) + Print2(t.date.year % 100) + "-" + Print2(t.date.month) + "-" + Print2(t.date.day)
    + (if t.space then " " else "T") + Print2(t.hour) + ":" + Print2(t.minute) + ":" + Print2(t.second)
  }

  function Numerals(v: seq<nat>): (s: string)
    requires forall i :: 0 <= i < |v| ==> v[i] <= 9
    ensures |s| == |v| && forall i :: 0 <= i < |v| ==> IsDigit(s[i]) && Value(s[i]) == v[i]
  {
    if v == [] then "" else Numerals(v[..|v| - 1]) + [Numeral(v[|v| - 1])]
  }

  function PrintZone(zone: Zone): string
    requires zone.Offset? ==> zone.hours <= 23 && zone.minutes <= 59
  {
    match zone
    case Local => ""
    case Zulu(lower) => if lower then "z" else "Z"
    case Offset(west, hours, minutes) => (if west then "-" else "+") + Print2(hours) + ":" + Print2(minutes)
  }

  function PrintTail(t: Stamp): string
    requires ValidStamp(t)
  {
    (if t.fraction == [] then "" else "." + Numerals(t.fraction)) + PrintZone(t.zone)
  }

  function Print(t: Stamp): string
    requires ValidStamp(t)
  {
    PrintMain(t) + PrintTail(t)
  }

  lemma {:induction false} RunOf(digits: string, rest: string)
    requires Digits(digits, 0, |digits|) && (rest == "" || !IsDigit(rest[0]))
    ensures Run(digits + rest) == |digits|
    decreases |digits|
  {
    var s := digits + rest;
    if digits == "" {
      assert s == rest;
    } else {
      assert s[1..] == digits[1..] + rest;
      RunOf(digits[1..], rest);
    }
  }

  lemma ZoneRoundTrip(zone: Zone)
    requires zone.Offset? ==> zone.hours <= 23 && zone.minutes <= 59
    ensures ParseZone(PrintZone(zone)) == Good(zone)
    ensures PrintZone(zone) == "" || (!IsDigit(PrintZone(zone)[0]) && PrintZone(zone)[0] != '.')
  {
    if zone.Offset? {
      var s := PrintZone(zone);
      assert s[1..3] == Print2(zone.hours) && s[4..6] == Print2(zone.minutes);
      assert s[1] == Print2(zone.hours)[0] && s[2] == Print2(zone.hours)[1];
      assert s[4] == Print2(zone.minutes)[0] && s[5] == Print2(zone.minutes)[1];
    }
  }

  lemma TailRoundTrip(t: Stamp)
    requires ValidStamp(t)
    ensures ParseTail(PrintTail(t)) == Good((t.fraction, t.zone))
  {
    hide ParseZone, PrintZone, Value, Numeral;
    var tail, zone := PrintTail(t), PrintZone(t.zone);
    ZoneRoundTrip(t.zone);
    if t.fraction == [] {
      assert tail == zone;
    } else {
      var digits := Numerals(t.fraction);
      assert tail[1..] == digits + zone;
      RunOf(digits, zone);
      assert tail[1..][|digits|..] == zone;
      assert Values(tail[1..], |digits|) == t.fraction;
    }
  }

  lemma TwoAt(s: string, i: nat, v: nat)
    requires v <= 99 && i + 2 <= |s| && s[i..i + 2] == Print2(v)
    ensures Digits(s, i, 2) && Two(s, i) == v
  {
    assert s[i] == s[i..i + 2][0] && s[i + 1] == s[i..i + 2][1];
  }

  lemma MainRoundTrip(t: Stamp, s: string)
    requires ValidStamp(t) && |s| >= 19 && s[..19] == PrintMain(t)
    ensures MainMatches(s) && 100 * Two(s, 0) + Two(s, 2) == t.date.year && Two(s, 5) == t.date.month
    ensures MainMatches(s) && Two(s, 8) == t.date.day && (s[10] == ' ') == t.space && Two(s, 11) == t.hour
    ensures MainMatches(s) && Two(s, 14) == t.minute && Two(s, 17) == t.second
  {
    hide Two, Print2, ValidDate;
    var m := PrintMain(t);
    assert t.date.month <= 12 && t.date.day <= 31 by { DayBound(t.date); }
    assert forall k :: 0 <= k < 19 ==> s[k] == m[k];
    assert s[0..2] == Print2(t.date.year / 100); TwoAt(s, 0, t.date.year / 100);
    assert s[2..4] == Print2(t.date.year % 100); TwoAt(s, 2, t.date.year % 100);
    assert s[5..7] == Print2(t.date.month); TwoAt(s, 5, t.date.month);
    assert s[8..10] == Print2(t.date.day); TwoAt(s, 8, t.date.day);
    assert s[11..13] == Print2(t.hour); TwoAt(s, 11, t.hour);
    assert s[14..16] == Print2(t.minute); TwoAt(s, 14, t.minute);
    assert s[17..19] == Print2(t.second); TwoAt(s, 17, t.second);
  }

  lemma DayBound(d: Date)
    requires ValidDate(d)
    ensures 1 <= d.month <= 12 && 1 <= d.day <= 31
  {
  }

  // Every valid stamp is read back from its string.
  lemma PrintParses(t: Stamp)
    requires ValidStamp(t)
    ensures Parse(Print(t)) == Good(t)
  {
    hide PrintMain, PrintTail, ParseTail, Two, DaysInMonth, MainMatches;
    var s := Print(t);
    assert s[..19] == PrintMain(t) && s[19..] == PrintTail(t);
    MainRoundTrip(t, s);
    TailRoundTrip(t);
  }

  lemma TwoPrints(s: string, i: nat)
    requires Digits(s, i, 2)
    ensures Two(s, i) <= 99 && Print2(Two(s, i)) == s[i..i + 2]
  {
    var v := Two(s, i);
    assert v / 10 == Value(s[i]) && v % 10 == Value(s[i + 1]);
  }

  lemma ZonePrints(tail: string)
    requires ParseZone(tail).Good?
    ensures var zone := ParseZone(tail).value;
      && (zone.Offset? ==> zone.hours <= 23 && zone.minutes <= 59) && PrintZone(zone) == tail
  {
    var zone := ParseZone(tail).value;
    if zone.Offset? {
      TwoPrints(tail, 1);
      TwoPrints(tail, 4);
      assert tail == [tail[0]] + tail[1..3] + ":" + tail[4..6];
    }
  }

  lemma {:induction false} ValuesPrint(s: string, n: nat)
    requires Digits(s, 0, n)
    ensures (forall i :: 0 <= i < n ==> Values(s, n)[i] <= 9) && Numerals(Values(s, n)) == s[..n]
  {
    if n > 0 {
      ValuesPrint(s, n - 1);
      assert Values(s, n)[..n - 1] == Values(s, n - 1);
    }
  }

  lemma TailPrints(tail: string)
    requires ParseTail(tail).Good?
    ensures var (fraction, zone) := ParseTail(tail).value;
      && |fraction| <= 3 && (forall i :: 0 <= i < |fraction| ==> fraction[i] <= 9)
      && (zone.Offset? ==> zone.hours <= 23 && zone.minutes <= 59)
      && tail == (if fraction == [] then "" else "." + Numerals(fraction)) + PrintZone(zone)
  {
    hide ParseZone, PrintZone, Value, Numeral, Run, Values, Numerals, Digits, IsDigit;
    if tail != "" && tail[0] == '.' {
      var n := Run(tail[1..]);
      ValuesPrint(tail[1..], n);
      ZonePrints(tail[1..][n..]);
      assert tail == "." + tail[1..][..n] + tail[1..][n..];
    } else {
      ZonePrints(tail);
    }
  }

  lemma MainPrints(s: string, t: Stamp)
    requires MainMatches(s) && ValidStamp(t)
    requires t.date == Date(100 * Two(s, 0) + Two(s, 2), Two(s, 5), Two(s, 8)) && t.space == (s[10] == ' ')
    requires t.hour == Two(s, 11) && t.minute == Two(s, 14) && t.second == Two(s, 17)
    ensures PrintMain(t) == s[..19]
  {
    hide Two, Print2, ValidDate;
    TwoPrints(s, 0); TwoPrints(s, 2); TwoPrints(s, 5); TwoPrints(s, 8); TwoPrints(s, 11); TwoPrints(s, 14); TwoPrints(s, 17);
    assert s[..19] == s[0..2] + s[2..4] + [s[4]] + s[5..7] + [s[7]] + s[8..10] + [s[10]] + s[11..13] + [s[13]]
      + s[14..16] + [s[16]] + s[17..19];
  }

  // Only the strings of valid stamps are accepted, each as its own stamp.
  lemma ParsePrints(s: string)
    requires Parse(s).Good?
    ensures ValidStamp(Parse(s).value) && Print(Parse(s).value) == s
  {
    hide PrintMain, ParseTail, Two, DaysInMonth, PrintZone, Numerals;
    var t := Parse(s).value;
    TailPrints(s[19..]);
    YearBound(s);
    MainPrints(s, t);
    assert s == s[..19] + s[19..];
  }

  lemma YearBound(s: string)
    requires MainMatches(s)
    ensures 100 * Two(s, 0) + Two(s, 2) <= 9999
  {
    TwoPrints(s, 0);
    TwoPrints(s, 2);
  }

  // What the failures say

  // s starts as the string of a valid stamp does.
  ghost predicate NamesTime(s: string) {
    exists t :: ValidStamp(t) && |s| >= 19 && s[..19] == PrintMain(t)
  }

  // After the time comes a point, but not one to three digits and then something else or
  // nothing.
  ghost predicate BadFraction(tail: string) {
    && tail != "" && tail[0] == '.'
    && forall n :: 1 <= n <= 3 && Digits(tail, 1, n) ==> 1 + n < |tail| && IsDigit(tail[1 + n])
  }

  lemma DigitsAfterPoint(tail: string, n: nat)
    requires tail != "" && n < |tail|
    ensures Digits(tail, 1, n) <==> Digits(tail[1..], 0, n)
  {
    assert forall k :: 0 <= k < n ==> tail[1..][k] == tail[1 + k];
    if Digits(tail[1..], 0, n) {
      assert forall k :: 1 <= k < 1 + n ==> tail[k] == tail[1..][k - 1];
    }
  }

  lemma RunLonger(tail: string, n: nat, k: nat)
    requires tail != "" && n == Run(tail[1..]) && (n == 0 || n > 3) && 1 <= k <= 3 && Digits(tail, 1, k)
    ensures 1 + k < |tail| && IsDigit(tail[1 + k])
  {
    assert tail[1..][0] == tail[1];
    assert n > 0 ==> tail[1..][k] == tail[1 + k];
  }

  lemma ZoneFails(rest: string)
    ensures ParseZone(rest).Bad? ==> ParseZone(rest) == Bad(InvalidZone)
  {
  }

  lemma FractionTells(tail: string)
    ensures ParseTail(tail) == Bad(InvalidFraction) <==> BadFraction(tail)
    ensures ParseTail(tail) != Bad(InvalidTimestamp)
  {
    hide ParseZone, Values, IsDigit;
    if tail != "" && tail[0] == '.' {
      var n := Run(tail[1..]);
      DigitsAfterPoint(tail, n);
      ZoneFails(tail[1..][n..]);
      if 1 <= n <= 3 {
        assert 1 + n < |tail| ==> tail[1 + n] == tail[1..][n];
      } else {
        forall k | 1 <= k <= 3 && Digits(tail, 1, k) ensures 1 + k < |tail| && IsDigit(tail[1 + k]) {
          RunLonger(tail, n, k);
        }
      }
    } else {
      ZoneFails(tail);
    }
  }

  // The time is read exactly if it is that of a valid stamp.
  lemma TimeTells(s: string)
    ensures NamesTime(s) ==> MainMatches(s)
    ensures NamesTime(s) ==> (Parse(s).Good? <==> ParseTail(s[19..]).Good?)
    ensures NamesTime(s) && Parse(s).Bad? ==> ParseTail(s[19..]) == Bad(Parse(s).failure)
    ensures !NamesTime(s) ==> Parse(s) == Bad(InvalidTimestamp)
  {
    hide PrintMain, ParseTail, Two, DaysInMonth;
    if NamesTime(s) {
      var t :| ValidStamp(t) && |s| >= 19 && s[..19] == PrintMain(t);
      MainRoundTrip(t, s);
    } else if MainMatches(s) {
      var t := Stamp(Date(100 * Two(s, 0) + Two(s, 2), Two(s, 5), Two(s, 8)), s[10] == ' ',
                     Two(s, 11), Two(s, 14), Two(s, 17), [], Local);
      YearBound(s);
      if ValidStamp(t) {
        MainPrints(s, t);
      }
    }
  }

  // Every string that is accepted or refused, and what for: as a timestamp if it does not
  // start with a time, whatever follows; then for its fraction; then for its zone.
  lemma RefusalsTell(s: string)
    ensures Parse(s).Good? <==> exists t :: ValidStamp(t) && Print(t) == s
    ensures Parse(s) == Bad(InvalidTimestamp) <==> !NamesTime(s)
    ensures Parse(s) == Bad(InvalidFraction) <==> NamesTime(s) && BadFraction(s[19..])
  {
    hide PrintMain, Print, Parse, ParseTail, Two, DaysInMonth, PrintZone, Numerals, BadFraction, MainMatches, ValidStamp, NamesTime;
    TimeTells(s);
    if Parse(s).Good? {
      ParsePrints(s);
    }
    if t :| ValidStamp(t) && Print(t) == s {
      PrintParses(t);
    }
    if NamesTime(s) {
      LongEnough(s);
      FractionTells(s[19..]);
    }
  }

  lemma LongEnough(s: string)
    requires NamesTime(s)
    ensures |s| >= 19
  {
  }

  // Deadlines

  const DAY_MS := 86400000

  // (digits .. "00"):sub(1, 3)
  function Millis(fraction: seq<nat>): nat
    requires |fraction| <= 3
  {
    var padded := fraction + [0, 0, 0];
    100 * padded[0] + 10 * padded[1] + padded[2]
  }

  function OffsetSeconds(zone: Zone): int {
    match zone
    case Offset(west, hours, minutes) =>
      var seconds := hours * 3600 + minutes * 60;
      if west then -seconds else seconds
    case _ => 0
  }

  // parse_at_string's deadline, in milliseconds, for a stamp that names its zone
  function Deadline(t: Stamp): int
    requires ValidStamp(t) && !t.zone.Local?
  {
    var epochSeconds := DaysFromCivil(t.date.year, t.date.month, t.date.day) * 86400 +
      t.hour * 3600 + t.minute * 60 + t.second - OffsetSeconds(t.zone);
    epochSeconds * 1000 + Millis(t.fraction)
  }

  function Yesterday(d: Date): (y: Date)
    requires ValidDate(d)
    ensures ValidDate(y) && Tomorrow(y) == d
  {
    if d.day > 1 then d.(day := d.day - 1)
    else if d.month > 1 then Date(d.year, d.month - 1, DaysInMonth(d.year, d.month - 1))
    else Date(d.year - 1, 12, 31)
  }

  // The date and the millisecond of the day in Greenwich: the clock is put back by the
  // offset, which may lead into the day before or after.
  function InGreenwich(t: Stamp): (r: (Date, int))
    requires ValidStamp(t)
    ensures ValidDate(r.0) && 0 <= r.1 < DAY_MS
  {
    assert Millis(t.fraction) <= 999;
    var ms := ((t.hour * 60 + t.minute) * 60 + t.second - OffsetSeconds(t.zone)) * 1000 + Millis(t.fraction);
    if ms < 0 then (Yesterday(t.date), ms + DAY_MS)
    else if ms >= DAY_MS then (Tomorrow(t.date), ms - DAY_MS)
    else (t.date, ms)
  }

  lemma DeadlineInGreenwich(t: Stamp)
    requires ValidStamp(t) && !t.zone.Local?
    ensures var (date, ms) := InGreenwich(t); Deadline(t) == DayOf(date) * DAY_MS + ms
  {
    hide DaysFromCivil, DaysInMonth, Millis;
    ConsecutiveDays(t.date);
    ConsecutiveDays(Yesterday(t.date));
  }

  // Two stamps have one deadline exactly if they name one instant.
  lemma SameInstantSameDeadline(t: Stamp, u: Stamp)
    requires ValidStamp(t) && ValidStamp(u) && !t.zone.Local? && !u.zone.Local?
    ensures Deadline(t) == Deadline(u) <==> InGreenwich(t) == InGreenwich(u)
  {
    hide DaysFromCivil, DaysInMonth, InGreenwich, Deadline, ValidDate;
    DeadlineInGreenwich(t);
    DeadlineInGreenwich(u);
    DatesGrow(InGreenwich(t).0, InGreenwich(u).0);
  }

  // The fraction in milliseconds, digit by digit; a digit that is not there counts nothing.
  function Digit(fraction: seq<nat>, i: nat): nat {
    if i < |fraction| then fraction[i] else 0
  }

  // What the zone and the fraction add to the deadline: a clock ahead of Greenwich is early
  // by what it is ahead.
  lemma DeadlineByParts(t: Stamp)
    requires ValidStamp(t) && !t.zone.Local?
    ensures var plain := t.(zone := Zulu(false), fraction := []);
      && Deadline(plain) == DayCount(t.date.year, t.date.month, t.date.day) * DAY_MS
           + t.hour * 3600000 + t.minute * 60000 + t.second * 1000
      && Deadline(t) == Deadline(plain)
           + 100 * Digit(t.fraction, 0) + 10 * Digit(t.fraction, 1) + Digit(t.fraction, 2)
           + match t.zone
             case Offset(west, hours, minutes) =>
               if west then hours * 3600000 + minutes * 60000 else -(hours * 3600000 + minutes * 60000)
             case _ => 0
  {
    hide DaysFromCivil, DaysInMonth, DayCount;
    CivilCountsDays(t.date.year, t.date.month, t.date.day);
  }

  lemma DayRange(d: Date)
    requires ValidDate(d) && 1 <= d.year <= 9999
    ensures -4000000 < DayOf(d) < 4000000
  {
    hide YearStart, DayOf, DaysInMonth;
    WithinYear(d);
    YearStartIs(d.year);
    YearStartIs(d.year + 1);
  }

  // Deadlines fit a double's 53 bits.
  lemma DeadlineIsExact(t: Stamp)
    requires ValidStamp(t) && !t.zone.Local?
    ensures -0x20_0000_0000_0000 < Deadline(t) < 0x20_0000_0000_0000
  {
    hide DaysFromCivil, DaysInMonth;
    DayRange(t.date);
    assert Millis(t.fraction) <= 999;
  }
}
