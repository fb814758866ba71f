/**
 The duration parser for market titles such as "Bitcoin Up or Down - March 4,
 7:00AM-7:15AM ET", in the two versions the programs use, against a printer of 12-hour ranges.

 Titles are sequences of single-byte characters here; slicing a title in the middle of a longer character is
 not modelled.
 */
module TimeRange {
  import opened Common
  import opened Digits

  /** Answer of the parser: minutes, no range found, or arithmetic beyond 32 bits. */
  datatype Parsed = Minutes(value: nat) | NoRange | Overflow

  /**
   What one colon of a title turns out to be: the colon of a start time, something that only looks like one
   (`Malformed`), or nothing of interest (`Skip`). The two versions differ in what they do about `Malformed`.
   */
  datatype Attempt = Found(minutes: nat) | Skip | Malformed | TooLarge

  function TrailingDigits(s: string): string {
    if s == "" || !IsDigit(s[|s| - 1]) then "" else TrailingDigits(s[..|s| - 1]) + [s[|s| - 1]]
  }

  /** Position of the first `c`, or the length of the string. */
  function Find(s: string, c: char): (i: nat)
    ensures i <= |s|
  {
    if s == "" || s[0] == c then 0 else 1 + Find(s[1..], c)
  }

  function To24h(hour: nat, mins: nat, isPm: bool): nat {
    var h24 := if isPm then (if hour == 12 then 12 else hour + 12) else if hour == 12 then 0 else hour;
    h24 * 60 + mins
  }

  function Difference(start: nat, end: nat): Attempt {
    if start > U32_MAX || end > U32_MAX then TooLarge
    else if end > start then Found(end - start)
    else if end + 1440 > U32_MAX || end + 1440 < start then TooLarge
    else if end + 1440 == start then Skip
    else Found(end + 1440 - start)
  }

  /** The length leads from the start to the end, on the same day if that is later and on the next otherwise; only wrong hours fail. */
  lemma DifferenceMeans(start: nat, end: nat)
    ensures match Difference(start, end)
            case Found(d) => 0 < d && start + d == if start < end then end else end + 1440
            case Skip => start == end + 1440
            case TooLarge => true
            case Malformed => false
    ensures Difference(start, end).TooLarge?
       <==> start > 4294967295 || end > 4294967295 || (end <= start && (end + 1440 > 4294967295 || end + 1440 < start))
    ensures start <= 4294967295 && end <= 4294967295 && (start < end || (start < end + 1440 <= 4294967295)) ==> Difference(start, end).Found?
  {
  }

  /** The part behind the dash: an hour, a colon, two digits of minutes and AM or PM. */
  function TryEnd(start: nat, rest: string): Attempt {
    var colon := Find(rest, ':');
    if colon == |rest| then Malformed
    else
      var hour, after := ParseU32(rest[..colon]), rest[colon + 1..];
      if hour.None? then Malformed
      else if |after| < 4 then Skip
      else
        var mins := ParseU32(after[..2]);
        if mins.None? then Malformed
        else if !("AM" <= after[2..]) && !("PM" <= after[2..]) then Skip
        else Difference(start, To24h(hour.value, mins.value, "PM" <= after[2..]))
  }

  /** Read a range from the text before and behind the colon of its start time. */
  function TryStart(before: string, after: string): Attempt
    requires |after| >= 2
  {
    var mins := ParseU32(after[..2]);
    if mins.None? then Malformed
    else
      var ampm := after[2..];
      if !("AM-" <= ampm) && !("PM-" <= ampm) then Skip
      else
        var hour := ParseU32(TrailingDigits(before));
        if hour.None? then Malformed
        else TryEnd(To24h(hour.value, mins.value, "PM-" <= ampm), ampm[3..])
  }

  /** Read a range whose start time has its colon at position `i`. */
  function TryAt(q: string, i: nat): Attempt
    requires i < |q|
  {
    if i < 1 || i + 7 > |q| then Skip else TryStart(q[..i], q[i + 1..])
  }

  function Upper(s: string): string {
    seq(|s|, i requires 0 <= i < |s| => if 'a' <= s[i] <= 'z' then (s[i] as int - 32) as char else s[i])
  }

  lemma UpperMeans(s: string)
    ensures Upper("abcdefghijklmnopqrstuvwxyz") == "ABCDEFGHIJKLMNOPQRSTUVWXYZ"
    ensures |Upper(s)| == |s| && forall i :: 0 <= i < |s| && s[i] !in "abcdefghijklmnopqrstuvwxyz" ==> Upper(s)[i] == s[i]
  {
    LowerLetters();
  }

  lemma LowerLetters()
    ensures forall c: char :: 'a' <= c <= 'z' ==> c in "abcdefghijklmnopqrstuvwxyz"
  {
    var lower := "abcdefghijklmnopqrstuvwxyz";
    forall c: char | 'a' <= c <= 'z' ensures c in lower {
      assert lower[c as int - 'a' as int] == c;
    }
  }

  /** Hourly titles have no colon and a single time. */
  function Fallback(q: string): Parsed {
    if (Contains(Upper(q), "AM ET") || Contains(Upper(q), "PM ET")) && ':' !in Upper(q) then Minutes(60) else NoRange
  }

  /** A title without a colon that names an hour before "ET", in any case of letters, stands for an hour. */
  lemma FallbackMeans(q: string)
    ensures Fallback(q)
         == if (exists a, b :: || Upper(q) == a + "AM ET" + b || Upper(q) == a + "PM ET" + b) && ':' !in Upper(q)
            then Minutes(60) else NoRange
  {
    ContainsMeans(Upper(q), "AM ET");
    ContainsMeans(Upper(q), "PM ET");
  }

  /** The main program goes on to the next colon after anything that does not fit. */
  function DurationFrom(q: string, i: nat): Parsed
    requires i <= |q|
    decreases |q| - i
  {
    if i == |q| then Fallback(q)
    else if q[i] != ':' then DurationFrom(q, i + 1)
    else
      match TryAt(q, i)
      case Found(d) => Minutes(d)
      case TooLarge => Overflow
      case Skip => DurationFrom(q, i + 1)
      case Malformed => DurationFrom(q, i + 1)
  }

  /** The complete-set program gives up at the first malformed one. */
  function StrictDurationFrom(q: string, i: nat): Parsed
    requires i <= |q|
    decreases |q| - i
  {
    if i == |q| then Fallback(q)
    else if q[i] != ':' then StrictDurationFrom(q, i + 1)
    else
      match TryAt(q, i)
      case Found(d) => Minutes(d)
      case TooLarge => Overflow
      case Skip => StrictDurationFrom(q, i + 1)
      case Malformed => NoRange
  }

  /** The search loop of the main program. */
  method ParseMarketDurationMinutes(q: string) returns (r: Parsed)
    ensures r == DurationFrom(q, 0)
  {
    var i := 0;
    while i < |q|
      invariant 0 <= i <= |q|
      invariant DurationFrom(q, i) == DurationFrom(q, 0)
    {
      if q[i] == ':' {
        match TryAt(q, i) {
          case Found(d) => return Minutes(d);
          case TooLarge => return Overflow;
          case Skip =>
          case Malformed =>
        }
      }
      i := i + 1;
    }
    r := Fallback(q);
  }

  /** The search loop of the complete-set program. */
  method ParseMarketDurationMinutesStrict(q: string) returns (r: Parsed)
    ensures r == StrictDurationFrom(q, 0)
  {
    var i := 0;
    while i < |q|
      invariant 0 <= i <= |q|
      invariant StrictDurationFrom(q, i) == StrictDurationFrom(q, 0)
    {
      if q[i] == ':' {
        match TryAt(q, i) {
          case Found(d) => return Minutes(d);
          case TooLarge => return Overflow;
          case Skip =>
          case Malformed => return NoRange;
        }
      }
      i := i + 1;
    }
    r := Fallback(q);
  }

  // ----- printing -----

  /** A minute of the day on a 12-hour clock, such as 7:05AM. */
  function PrintTime(minute: nat): string
    requires minute < 1440
  {
    HourText(minute) + ":" + MinuteText(minute) + HalfText(minute)
  }

  function HourText(minute: nat): string {
    var hour := minute / 60 % 12;
    Numeral(if hour == 0 then 12 else hour)
  }

  function MinuteText(minute: nat): string {
    ZeroPad(Numeral(minute % 60), 2)
  }

  function HalfText(minute: nat): string {
    if minute < 720 then "AM" else "PM"
  }

  /** A title: any prefix, a range, any suffix. */
  function Title(prefix: string, start: nat, length: nat, suffix: string): string
    requires start < 1440
  {
    prefix + PrintTime(start) + "-" + PrintTime((start + length) % 1440) + suffix
  }

  // ----- reading what was printed -----

  lemma {:induction false} DigitsTrail(p: string, d: string)
    requires AllDigits(d) && (p == "" || !IsDigit(p[|p| - 1]))
    ensures TrailingDigits(p + d) == d
  {
    var s := p + d;
    if d != "" {
      var init, last := d[..|d| - 1], d[|d| - 1];
      DigitsTrail(p, init);
      assert s[..|s| - 1] == p + init && s[|s| - 1] == last;
      assert d == init + [last];
    } else {
      assert s == p;
    }
  }

  lemma {:induction false} FindsFirst(a: string, c: char, b: string)
    requires c !in a
    ensures Find(a + [c] + b, c) == |a|
  {
    var s := a + [c] + b;
    if a != "" {
      assert s[1..] == a[1..] + [c] + b;
      FindsFirst(a[1..], c, b);
    }
  }

  lemma SmallNumeral(n: nat)
    requires n < 100
    ensures |Numeral(n)| <= 2
  {
  }

  lemma ReadsHour(minute: nat)
    requires minute < 1440
    ensures var h := minute / 60 % 12; ParseU32(HourText(minute)) == Some(if h == 0 then 12 else h)
    ensures AllDigits(HourText(minute)) && ':' !in HourText(minute) && HourText(minute) != ""
  {
    var h := minute / 60 % 12;
    NumeralRoundTrip(if h == 0 then 12 else h);
    assert IsDigit(HourText(minute)[0]);
  }

  lemma ReadsMinutes(minute: nat)
    ensures |MinuteText(minute)| == 2 && ParseU32(MinuteText(minute)) == Some(minute % 60)
  {
    SmallNumeral(minute % 60);
    NumeralRoundTrip(minute % 60);
    PaddingKeepsValue(Numeral(minute % 60), 2);
    assert IsDigit(MinuteText(minute)[0]);
  }

  /** The 12-hour clock and back: noon and midnight included. */
  lemma ClockRoundTrip(minute: nat)
    requires minute < 1440
    ensures var h := minute / 60 % 12; To24h(if h == 0 then 12 else h, minute % 60, minute >= 720) == minute
  {
  }

  lemma Split(a: string, b: string)
    ensures (a + b)[..|a|] == a && (a + b)[|a|..] == b
  {
  }

  predicate IsHalf(a: string) {
    a == "AM" || a == "PM"
  }

  lemma HalfReads(a: string, more: string)
    requires IsHalf(a)
    ensures "PM" <= a + more <==> a == "PM"
    ensures "AM" <= a + more <==> a == "AM"
  {
    assert (a + more)[..2] == a;
  }

  lemma DashReads(a: string, tail: string)
    requires IsHalf(a)
    ensures var s := a + ("-" + tail);
      ("PM-" <= s <==> a == "PM") && ("AM-" <= s <==> a == "AM") && s[3..] == tail
  {
    var s := a + ("-" + tail);
    assert s[..2] == a && s[2] == '-';
    assert s[..3] == a + "-";
  }

  /** An end time made of an hour, a colon, two characters of minutes and a half of the day. */
  lemma ReadsEndParts(start: nat, h: string, m: string, a: string, more: string, hour: nat, mins: nat)
    requires ':' !in h && |m| == 2 && IsHalf(a) && ParseU32(h) == Some(hour) && ParseU32(m) == Some(mins)
    ensures TryEnd(start, h + [':'] + (m + (a + more))) == Difference(start, To24h(hour, mins, a == "PM"))
  {
    var after := m + (a + more);
    var rest := h + [':'] + after;
    FindsFirst(h, ':', after);
    assert rest[..|h|] == h && rest[|h| + 1..] == after;
    Split(m, a + more);
    HalfReads(a, more);
  }

  lemma AtColon(head: string, after: string)
    requires head != "" && |after| >= 6
    ensures TryAt(head + [':'] + after, |head|) == TryStart(head, after)
  {
    var q := head + [':'] + after;
    assert q[..|head|] == head && q[|head| + 1..] == after;
  }

  /** A start time in front of its end, seen from its colon. */
  lemma ReadsStartParts(head: string, m: string, a: string, tail: string, hour: nat, mins: nat)
    requires |m| == 2 && IsHalf(a)
    requires ParseU32(TrailingDigits(head)) == Some(hour) && ParseU32(m) == Some(mins)
    ensures TryStart(head, m + (a + ("-" + tail))) == TryEnd(To24h(hour, mins, a == "PM"), tail)
  {
    Split(m, a + ("-" + tail));
    DashReads(a, tail);
  }

  lemma TimeParts(minute: nat)
    requires minute < 1440
    ensures HourText(minute) != "" && ':' !in HourText(minute) && |MinuteText(minute)| == 2 && IsHalf(HalfText(minute))
    ensures forall suffix :: PrintTime(minute) + suffix == HourText(minute) + [':'] + (MinuteText(minute) + (HalfText(minute) + suffix))
  {
    ReadsHour(minute);
    ReadsMinutes(minute);
  }

  lemma ReadsEnd(start: nat, minute: nat, suffix: string)
    requires start < 1440 && minute < 1440
    ensures TryEnd(start, PrintTime(minute) + suffix) == Difference(start, minute)
  {
    var h := minute / 60 % 12;
    ReadsHour(minute);
    ReadsMinutes(minute);
    ClockRoundTrip(minute);
    TimeParts(minute);
    ReadsEndParts(start, HourText(minute), MinuteText(minute), HalfText(minute), suffix, if h == 0 then 12 else h, minute % 60);
  }

  /** What follows the colon of a start time. */
  function AfterColon(start: nat, tail: string): string {
    MinuteText(start) + (HalfText(start) + ("-" + tail))
  }

  lemma TitleParts(prefix: string, start: nat, length: nat, suffix: string)
    requires start < 1440
    ensures var tail := PrintTime((start + length) % 1440) + suffix;
      tail != "" && Title(prefix, start, length, suffix) == (prefix + HourText(start)) + [':'] + AfterColon(start, tail)
  {
    var end := PrintTime((start + length) % 1440);
    assert end != "";
    Regrouped(prefix, HourText(start), MinuteText(start), HalfText(start), end, suffix);
  }

  lemma Regrouped(prefix: string, hour: string, mins: string, half: string, end: string, suffix: string)
    ensures prefix + (hour + ":" + mins + half) + "-" + end + suffix
            == (prefix + hour) + [':'] + (mins + (half + ("-" + (end + suffix))))
  {
  }

  lemma {:induction false} ReadsStart(head: string, start: nat, tail: string)
    requires start < 1440 && tail != ""
    requires head != "" && TrailingDigits(head) == HourText(start)
    ensures TryAt(head + [':'] + AfterColon(start, tail), |head|) == TryEnd(start, tail)
  {
    var h := start / 60 % 12;
    ReadsHour(start);
    ReadsMinutes(start);
    ClockRoundTrip(start);
    ReadsStartParts(head, MinuteText(start), HalfText(start), tail, if h == 0 then 12 else h, start % 60);
    AtColon(head, AfterColon(start, tail));
  }

  /** At the colon of the start time the parser reads the whole range. */
  lemma ReadsRange(prefix: string, start: nat, length: nat, suffix: string) returns (rest: string)
    requires start < 1440 && 1 <= length <= 1440
    requires prefix == "" || !IsDigit(prefix[|prefix| - 1])
    ensures var head := prefix + HourText(start);
      && Title(prefix, start, length, suffix) == head + [':'] + rest
      && TryAt(head + [':'] + rest, |head|) == Found(length)
    ensures HourText(start) != "" && ':' !in HourText(start)
  {
    var end := (start + length) % 1440;
    var tail := PrintTime(end) + suffix;
    TitleParts(prefix, start, length, suffix);
    ReadsHour(start);
    DigitsTrail(prefix, HourText(start));
    ReadsStart(prefix + HourText(start), start, tail);
    ReadsEnd(start, end, suffix);
    DayWraps(start, length);
    rest := AfterColon(start, tail);
  }

  lemma DayWraps(start: nat, length: nat)
    requires start < 1440 && 1 <= length <= 1440
    ensures Difference(start, (start + length) % 1440) == Found(length)
  {
  }

  /** Colons before position `i` are the only thing the two loops look at. */
  lemma {:induction false} NoColonNoStop(q: string, i: nat, to: nat)
    requires i <= to <= |q| && forall k :: i <= k < to ==> q[k] != ':'
    ensures DurationFrom(q, i) == DurationFrom(q, to) && StrictDurationFrom(q, i) == StrictDurationFrom(q, to)
    decreases |q| - i
  {
    if i < to {
      NoColonNoStop(q, i + 1, to);
    }
  }

  lemma FirstColonDecides(head: string, rest: string, d: nat)
    requires ':' !in head && TryAt(head + [':'] + rest, |head|) == Found(d)
    ensures DurationFrom(head + [':'] + rest, 0) == Minutes(d) && StrictDurationFrom(head + [':'] + rest, 0) == Minutes(d)
  {
    var q := head + [':'] + rest;
    forall k | 0 <= k < |head| ensures q[k] != ':' {
      assert q[k] == head[k];
    }
    NoColonNoStop(q, 0, |head|);
  }

  /**
   Both parsers read back the length of any range of up to a day, starting at any minute, across noon, midnight
   and the end of the day, behind any prefix without a colon that does not end in a digit.
   */
  lemma RangeRoundTrip(prefix: string, start: nat, length: nat, suffix: string)
    requires start < 1440 && 1 <= length <= 1440
    requires ':' !in prefix && (prefix == "" || !IsDigit(prefix[|prefix| - 1]))
    ensures DurationFrom(Title(prefix, start, length, suffix), 0) == Minutes(length)
    ensures StrictDurationFrom(Title(prefix, start, length, suffix), 0) == Minutes(length)
  {
    var rest := ReadsRange(prefix, start, length, suffix);
    FirstColonDecides(prefix + HourText(start), rest, length);
  }

  // ----- where the two versions part -----

  /** What every position of a title turns out to be; only colons are of interest. */
  function AttemptsOf(q: string): seq<Attempt> {
    seq(|q|, i requires 0 <= i < |q| => if q[i] == ':' then TryAt(q, i) else Skip)
  }

  /** Both loops, on what they meet. */
  function Search(a: seq<Attempt>, fallback: Parsed, strict: bool): Parsed {
    if a == [] then fallback
    else
      match a[0]
      case Found(d) => Minutes(d)
      case TooLarge => Overflow
      case Skip => Search(a[1..], fallback, strict)
      case Malformed => if strict then NoRange else Search(a[1..], fallback, strict)
  }

  lemma {:induction false} LoopsSearch(q: string, i: nat)
    requires i <= |q|
    ensures DurationFrom(q, i) == Search(AttemptsOf(q)[i..], Fallback(q), false)
    ensures StrictDurationFrom(q, i) == Search(AttemptsOf(q)[i..], Fallback(q), true)
    decreases |q| - i
  {
    var a := AttemptsOf(q)[i..];
    if i < |q| {
      LoopsSearch(q, i + 1);
      assert a[0] == AttemptsOf(q)[i] && a[1..] == AttemptsOf(q)[i + 1..];
    }
  }

  predicate Stops(x: Attempt) {
    x.Found? || x.TooLarge?
  }

  lemma {:induction false} SearchFinds(a: seq<Attempt>)
    ensures Search(a, NoRange, false) != NoRange <==> exists m :: 0 <= m < |a| && Stops(a[m])
  {
    if a != [] {
      SearchFinds(a[1..]);
      assert forall m :: 0 < m < |a| ==> a[m] == a[1..][m - 1];
    }
  }

  /** The first thing that is not skipped only looks like a start time. */
  predicate MalformedFirst(a: seq<Attempt>, k: int) {
    0 <= k < |a| && a[k] == Malformed && forall c :: 0 <= c < k ==> a[c] == Skip
  }

  /** A malformed start, and behind it something that the main version returns. */
  predicate Parts(a: seq<Attempt>, k: int, m: int) {
    MalformedFirst(a, k) && k < m < |a| && Stops(a[m])
  }

  lemma PartsBehind(a: seq<Attempt>)
    requires a != [] && a[0] == Skip
    ensures (exists k, m :: Parts(a, k, m)) <==> (exists k, m :: Parts(a[1..], k, m))
  {
    forall k, m | Parts(a, k, m) ensures 0 < k && Parts(a[1..], k - 1, m - 1) {
    }
    forall k, m | Parts(a[1..], k, m) ensures Parts(a, k + 1, m + 1) {
    }
  }

  lemma {:induction false} SearchesPart(a: seq<Attempt>)
    ensures Search(a, NoRange, true) != Search(a, NoRange, false) <==> exists k, m :: Parts(a, k, m)
  {
    if a == [] {
    } else if a[0] == Skip {
      SearchesPart(a[1..]);
      PartsBehind(a);
    } else if a[0] == Malformed {
      SearchFinds(a[1..]);
      assert forall k, m :: Parts(a, k, m) ==> k == 0;
      assert forall m :: 0 < m < |a| ==> a[m] == a[1..][m - 1];
      assert forall m :: 0 < m < |a| && Stops(a[m]) ==> Parts(a, 0, m);
    } else {
      assert forall k, m :: Parts(a, k, m) ==> k == 0;
    }
  }

  lemma {:induction false} AllSkipped(a: seq<Attempt>, fallback: Parsed, strict: bool)
    requires forall i :: 0 <= i < |a| ==> a[i] == Skip
    ensures Search(a, fallback, strict) == fallback
  {
    if a != [] {
      AllSkipped(a[1..], fallback, strict);
    }
  }

  /**
   The two versions differ on exactly the titles whose first colon that is not skipped is malformed and that
   have a range, or an overflow, at a later colon: the main version goes on to it, the other gives up.
   */
  lemma VersionsDiffer(q: string)
    ensures StrictDurationFrom(q, 0) != DurationFrom(q, 0) <==> exists k, m :: Parts(AttemptsOf(q), k, m)
  {
    var a := AttemptsOf(q);
    LoopsSearch(q, 0);
    assert a[0..] == a;
    if ':' in q {
      var c :| 0 <= c < |q| && q[c] == ':';
      assert Upper(q)[c] == ':';
      SearchesPart(a);
    } else {
      assert forall i :: 0 <= i < |q| ==> q[i] in q;
      AllSkipped(a, Fallback(q), true);
      AllSkipped(a, Fallback(q), false);
    }
  }

  /**
   A colon in the prefix is enough to part them: when the two characters behind it are no number, the main program
   still finds the range and the complete-set program finds none.
   */
  lemma ColonInPrefixParts(lead: string, middle: string, start: nat, length: nat, suffix: string)
    requires start < 1440 && 1 <= length <= 1440
    requires lead != "" && ':' !in lead && ':' !in middle
    requires |middle| >= 2 && ParseU32(middle[..2]) == None && !IsDigit(middle[|middle| - 1])
    ensures var q := Title(lead + ":" + middle, start, length, suffix);
      DurationFrom(q, 0) == Minutes(length) && StrictDurationFrom(q, 0) == NoRange
  {
    var rest := ReadsRange(lead + ":" + middle, start, length, suffix);
    RegroupPrefix(lead, ":", middle, HourText(start));
    Prefix2(middle, HourText(start));
    HourBehindPrefix(lead, middle + HourText(start), lead + ":" + (middle + HourText(start)), rest, length);
  }

  lemma Prefix2(a: string, b: string)
    requires |a| >= 2
    ensures (a + b)[..2] == a[..2]
  {
  }

  /** A malformed colon, and the colon of a range as the next one. */
  lemma SecondColonDecides(q: string, c: nat, n: nat, d: nat)
    requires c < n < |q| && q[c] == ':' && q[n] == ':' && forall k :: 0 <= k < n && k != c ==> q[k] != ':'
    requires TryAt(q, c) == Malformed && TryAt(q, n) == Found(d)
    ensures DurationFrom(q, 0) == Minutes(d) && StrictDurationFrom(q, 0) == NoRange
  {
    NoColonNoStop(q, 0, c);
    NoColonNoStop(q, c + 1, n);
  }

  lemma OneColonBefore(a: string, b: string)
    requires ':' !in a && ':' !in b
    ensures var s := a + ":" + b; s[|a|] == ':' && forall k :: 0 <= k < |s| && k != |a| ==> s[k] != ':'
  {
    var s := a + ":" + b;
    forall k | 0 <= k < |s| && k != |a| ensures s[k] != ':' {
      assert s[k] == if k < |a| then a[k] else b[k - |a| - 1];
    }
  }

  lemma RegroupPrefix(a: string, b: string, c: string, d: string)
    ensures (a + b + c) + d == a + b + (c + d)
  {
  }

  lemma MalformedBehind(lead: string, tail: string, rest: string)
    requires lead != "" && |tail| >= 2 && |tail| + |rest| >= 5 && ParseU32(tail[..2]) == None
    ensures TryAt(lead + ":" + tail + [':'] + rest, |lead|) == Malformed
  {
    var after := tail + [':'] + rest;
    assert lead + ":" + tail + [':'] + rest == lead + [':'] + after;
    assert after[..2] == tail[..2];
    AtColon(lead, after);
  }

  lemma HeadKept(head: string, rest: string)
    ensures var q := head + [':'] + rest;
      |head| < |q| && q[|head|] == ':' && forall k :: 0 <= k < |head| ==> q[k] == head[k]
  {
  }

  /** `head` ends in a second part behind a colon, and the time that follows it is found. */
  lemma HourBehindPrefix(lead: string, tail: string, head: string, rest: string, d: nat)
    requires lead != "" && ':' !in lead && ':' !in tail
    requires |tail| >= 2 && ParseU32(tail[..2]) == None
    requires head == lead + ":" + tail && TryAt(head + [':'] + rest, |head|) == Found(d)
    ensures DurationFrom(head + [':'] + rest, 0) == Minutes(d) && StrictDurationFrom(head + [':'] + rest, 0) == NoRange
  {
    OneColonBefore(lead, tail);
    MalformedBehind(lead, tail, rest);
    HeadKept(head, rest);
    SecondColonDecides(head + [':'] + rest, |lead|, |head|, d);
  }
}
