/** The two time-slot patterns of the `ask_time_slot` state:
      12-hour  `^\d{1,2} ?(AM|PM|am|pm) ?- ?\d{1,2} ?(AM|PM|am|pm)$`
      24-hour  `^\d{2}:\d{2} ?- ?\d{2}:\d{2}$`
    Each pattern is described twice: by the shape of the strings it matches
    (`Slot`, `WellFormed`, `Render`) and by a left-to-right recogniser
    (`ParseTwelveHour`, `ParseTwentyFourHour`); the round-trip lemmas show
    that the recogniser accepts exactly the rendered shapes. */
module TimeSlot {
  import opened Wrappers
  import opened Text

  datatype Meridiem = UpperAm | UpperPm | LowerAm | LowerPm

  predicate IsLowerMeridiem(m: Meridiem) {
    m == LowerAm || m == LowerPm
  }

  /** The alternation `(AM|PM|am|pm)`. */
  function MeridiemText(m: Meridiem): string {
    match m
    case UpperAm => "AM"
    case UpperPm => "PM"
    case LowerAm => "am"
    case LowerPm => "pm"
  }

  /** One way a slot string can be built; a `true` flag is the optional ` ?`
      space at that position. */
  datatype Slot =
    | TwelveHour(fromHour: string, spaceBeforeFromMeridiem: bool, fromMeridiem: Meridiem,
                 spaceBeforeDash: bool, spaceAfterDash: bool,
                 toHour: string, spaceBeforeToMeridiem: bool, toMeridiem: Meridiem)
    | TwentyFourHour(fromHour: string, fromMinute: string,
                     spaceBeforeDash: bool, spaceAfterDash: bool,
                     toHour: string, toMinute: string)

  /** `\d{1,2}` for 12-hour hours, `\d{2}` for every 24-hour field. */
  predicate WellFormed(t: Slot) {
    match t
    case TwelveHour(h1, _, _, _, _, h2, _, _) =>
      1 <= |h1| <= 2 && AllDigits(h1) && 1 <= |h2| <= 2 && AllDigits(h2)
    case TwentyFourHour(h1, m1, _, _, h2, m2) =>
      |h1| == 2 && AllDigits(h1) && |m1| == 2 && AllDigits(m1) &&
      |h2| == 2 && AllDigits(h2) && |m2| == 2 && AllDigits(m2)
  }

  function Space(present: bool): string {
    if present then " " else ""
  }

  /** `\d{1,2} ?(AM|PM|am|pm)` as written, followed by `rest`. */
  function TwelveHourClock(hour: string, space: bool, m: Meridiem, rest: string): string {
    hour + (Space(space) + (MeridiemText(m) + rest))
  }

  /** `\d{2}:\d{2}` as written, followed by `rest`. */
  function TwentyFourHourClock(hour: string, minute: string, rest: string): string {
    hour + ([':'] + (minute + rest))
  }

  /** ` ?- ?` as written, followed by `rest`. */
  function Dash(spaceBefore: bool, spaceAfter: bool, rest: string): string {
    Space(spaceBefore) + (['-'] + (Space(spaceAfter) + rest))
  }

  /** The string a slot shape stands for. */
  function Render(t: Slot): string {
    match t
    case TwelveHour(h1, a, m1, b, c, h2, d, m2) =>
      TwelveHourClock(h1, a, m1, Dash(b, c, TwelveHourClock(h2, d, m2, [])))
    case TwentyFourHour(h1, m1, b, c, h2, m2) =>
      TwentyFourHourClock(h1, m1, Dash(b, c, TwentyFourHourClock(h2, m2, [])))
  }

  /** `\d{1,2}`: two digits when there are two, otherwise one. */
  function TakeShortNumber(s: string): (r: Option<(string, string)>)
    ensures r.Some? ==> 1 <= |r.value.0| <= 2 && AllDigits(r.value.0) && s == r.value.0 + r.value.1
    ensures r.None? <==> (s == [] || !IsDigit(s[0]))
  {
    if |s| >= 2 && IsDigit(s[0]) && IsDigit(s[1]) then Some((s[..2], s[2..]))
    else if |s| >= 1 && IsDigit(s[0]) then Some((s[..1], s[1..]))
    else None
  }

  /** `\d{2}`. */
  function TakeTwoDigits(s: string): (r: Option<(string, string)>)
    ensures r.Some? ==> |r.value.0| == 2 && AllDigits(r.value.0) && s == r.value.0 + r.value.1
    ensures r.None? <==> !(|s| >= 2 && IsDigit(s[0]) && IsDigit(s[1]))
  {
    if |s| >= 2 && IsDigit(s[0]) && IsDigit(s[1]) then Some((s[..2], s[2..])) else None
  }

  /** ` ?`: consumes one space if there is one. */
  function TakeSpace(s: string): (r: (bool, string))
    ensures s == Space(r.0) + r.1
    ensures r.0 <==> (s != [] && s[0] == ' ')
  {
    if |s| > 0 && s[0] == ' ' then (true, s[1..]) else (false, s)
  }

  function TakeMeridiem(s: string): (r: Option<(Meridiem, string)>)
    ensures r.Some? ==> s == MeridiemText(r.value.0) + r.value.1
    ensures r.None? <==> (|s| < 2 || s[..2] !in {"AM", "PM", "am", "pm"})
  {
    if |s| < 2 then None
    else if s[..2] == "AM" then Some((UpperAm, s[2..]))
    else if s[..2] == "PM" then Some((UpperPm, s[2..]))
    else if s[..2] == "am" then Some((LowerAm, s[2..]))
    else if s[..2] == "pm" then Some((LowerPm, s[2..]))
    else None
  }

  /** A single literal character. */
  function TakeChar(c: char, s: string): (r: Option<string>)
    ensures r.Some? <==> (s != [] && s[0] == c)
    ensures r.Some? ==> s == [c] + r.value
  {
    if |s| > 0 && s[0] == c then Some(s[1..]) else None
  }

  /** `\d{1,2} ?(AM|PM|am|pm)` at the front of `s`. */
  function TakeTwelveHourClock(s: string): (r: Option<(string, bool, Meridiem, string)>)
    ensures r.Some? ==> 1 <= |r.value.0| <= 2 && AllDigits(r.value.0)
    ensures r.Some? ==> s == TwelveHourClock(r.value.0, r.value.1, r.value.2, r.value.3)
  {
    match TakeShortNumber(s)
    case None => None
    case Some((hour, s1)) =>
      var (space, s2) := TakeSpace(s1);
      match TakeMeridiem(s2)
      case None => None
      case Some((m, rest)) => Some((hour, space, m, rest))
  }

  /** `\d{2}:\d{2}` at the front of `s`. */
  function TakeTwentyFourHourClock(s: string): (r: Option<(string, string, string)>)
    ensures r.Some? ==> |r.value.0| == 2 && AllDigits(r.value.0) && |r.value.1| == 2 && AllDigits(r.value.1)
    ensures r.Some? ==> s == TwentyFourHourClock(r.value.0, r.value.1, r.value.2)
  {
    match TakeTwoDigits(s)
    case None => None
    case Some((hour, s1)) =>
      match TakeChar(':', s1)
      case None => None
      case Some(s2) =>
        match TakeTwoDigits(s2)
        case None => None
        case Some((minute, rest)) => Some((hour, minute, rest))
  }

  /** ` ?- ?` at the front of `s`. */
  function TakeDash(s: string): (r: Option<(bool, bool, string)>)
    ensures r.Some? ==> s == Dash(r.value.0, r.value.1, r.value.2)
  {
    var (before, s1) := TakeSpace(s);
    match TakeChar('-', s1)
    case None => None
    case Some(s2) =>
      var (after, rest) := TakeSpace(s2);
      Some((before, after, rest))
  }

  /** `re.match` of the 12-hour pattern; `$` demands that nothing is left over. */
  function ParseTwelveHour(s: string): (r: Option<Slot>)
    ensures r.Some? ==> r.value.TwelveHour? && WellFormed(r.value) && Render(r.value) == s
  {
    match TakeTwelveHourClock(s)
    case None => None
    case Some((h1, a, m1, s1)) =>
      match TakeDash(s1)
      case None => None
      case Some((b, c, s2)) =>
        match TakeTwelveHourClock(s2)
        case None => None
        case Some((h2, d, m2, rest)) =>
          if rest == [] then
            Some(TwelveHour(h1, a, m1, b, c, h2, d, m2))
          else None
  }

  /** `re.match` of the 24-hour pattern; `$` demands that nothing is left over. */
  function ParseTwentyFourHour(s: string): (r: Option<Slot>)
    ensures r.Some? ==> r.value.TwentyFourHour? && WellFormed(r.value) && Render(r.value) == s
  {
    match TakeTwentyFourHourClock(s)
    case None => None
    case Some((h1, m1, s1)) =>
      match TakeDash(s1)
      case None => None
      case Some((b, c, s2)) =>
        match TakeTwentyFourHourClock(s2)
        case None => None
        case Some((h2, m2, rest)) =>
          if rest == [] then
            Some(TwentyFourHour(h1, m1, b, c, h2, m2))
          else None
  }

  /** A meridiem followed by text without capitals is a lower-case one. */
  lemma LowerMeridiemOf(m: Meridiem, rest: string)
    requires NoUpper(MeridiemText(m) + rest)
    ensures IsLowerMeridiem(m) && NoUpper(rest)
  {
    assert (MeridiemText(m) + rest)[0] == MeridiemText(m)[0];
    NoUpperSuffix(MeridiemText(m), rest);
  }

  /** A 12-hour slot written without capitals has `am`/`pm` on both ends:
      the `AM|PM` alternatives can never match a lower-cased message. */
  lemma LowerCaseSlotMeridiems(t: Slot)
    requires t.TwelveHour? && NoUpper(Render(t))
    ensures IsLowerMeridiem(t.fromMeridiem) && IsLowerMeridiem(t.toMeridiem)
  {
    var TwelveHour(h1, a, m1, b, c, h2, d, m2) := t;
    var second := TwelveHourClock(h2, d, m2, []);
    var afterFirst := Dash(b, c, second);
    NoUpperSuffix(h1, Space(a) + (MeridiemText(m1) + afterFirst));
    NoUpperSuffix(Space(a), MeridiemText(m1) + afterFirst);
    LowerMeridiemOf(m1, afterFirst);
    NoUpperSuffix(Space(b), ['-'] + (Space(c) + second));
    NoUpperSuffix(['-'], Space(c) + second);
    NoUpperSuffix(Space(c), second);
    NoUpperSuffix(h2, Space(d) + (MeridiemText(m2) + []));
    NoUpperSuffix(Space(d), MeridiemText(m2) + []);
    LowerMeridiemOf(m2, []);
  }

  /** Every 12-hour reading of a normalised message uses `am`/`pm`. */
  lemma NormalizedSlotMeridiems(raw: string, t: Slot)
    requires t.TwelveHour? && Render(t) == Normalize(raw)
    ensures IsLowerMeridiem(t.fromMeridiem) && IsLowerMeridiem(t.toMeridiem)
  {
    NormalizeShape(raw);
    LowerCaseSlotMeridiems(t);
  }

  /** The strings either pattern describes. */
  ghost predicate IsTimeSlot(s: string) {
    exists t :: WellFormed(t) && Render(t) == s
  }

  /** The check of the `ask_time_slot` state as the handler runs it:
      `re.match(12-hour) or re.match(24-hour)`. */
  predicate MatchesTimeSlot(s: string) {
    ParseTwelveHour(s).Some? || ParseTwentyFourHour(s).Some?
  }

  lemma TakeShortNumberOf(hour: string, rest: string)
    requires 1 <= |hour| <= 2 && AllDigits(hour)
    requires |hour| == 1 ==> rest == [] || !IsDigit(rest[0])
    ensures TakeShortNumber(hour + rest) == Some((hour, rest))
  {
    var s := hour + rest;
    assert s[..|hour|] == hour && s[|hour|..] == rest;
  }

  lemma TakeTwoDigitsOf(digits: string, rest: string)
    requires |digits| == 2 && AllDigits(digits)
    ensures TakeTwoDigits(digits + rest) == Some((digits, rest))
  {
    var s := digits + rest;
    assert s[..2] == digits && s[2..] == rest;
  }

  lemma TakeSpaceOf(present: bool, rest: string)
    requires !present ==> rest == [] || rest[0] != ' '
    ensures TakeSpace(Space(present) + rest) == (present, rest)
  {
    if present {
      assert (Space(present) + rest)[1..] == rest;
    } else {
      assert Space(present) + rest == rest;
    }
  }

  lemma TakeMeridiemOf(m: Meridiem, rest: string)
    ensures TakeMeridiem(MeridiemText(m) + rest) == Some((m, rest))
  {
    var s := MeridiemText(m) + rest;
    assert s[..2] == MeridiemText(m) && s[2..] == rest;
  }

  lemma TakeCharOf(c: char, rest: string)
    ensures TakeChar(c, [c] + rest) == Some(rest)
  {
    assert ([c] + rest)[1..] == rest;
  }

  lemma TakeTwelveHourClockOf(hour: string, space: bool, m: Meridiem, rest: string)
    requires 1 <= |hour| <= 2 && AllDigits(hour)
    ensures TakeTwelveHourClock(TwelveHourClock(hour, space, m, rest)) == Some((hour, space, m, rest))
  {
    var tail := MeridiemText(m) + rest;
    var afterHour := Space(space) + tail;
    assert afterHour[0] == ' ' || afterHour[0] in "APap";
    TakeShortNumberOf(hour, afterHour);
    assert tail[0] in "APap";
    TakeSpaceOf(space, tail);
    TakeMeridiemOf(m, rest);
  }

  lemma TakeTwentyFourHourClockOf(hour: string, minute: string, rest: string)
    requires |hour| == 2 && AllDigits(hour) && |minute| == 2 && AllDigits(minute)
    ensures TakeTwentyFourHourClock(TwentyFourHourClock(hour, minute, rest)) == Some((hour, minute, rest))
  {
    TakeTwoDigitsOf(hour, [':'] + (minute + rest));
    TakeCharOf(':', minute + rest);
    TakeTwoDigitsOf(minute, rest);
  }

  lemma TakeDashOf(before: bool, after: bool, rest: string)
    requires !after ==> rest == [] || rest[0] != ' '
    ensures TakeDash(Dash(before, after, rest)) == Some((before, after, rest))
  {
    var afterDash := Space(after) + rest;
    TakeSpaceOf(before, ['-'] + afterDash);
    TakeCharOf('-', afterDash);
    TakeSpaceOf(after, rest);
  }

  lemma ParseTwelveHourSteps(s: string, h1: string, a: bool, m1: Meridiem, s1: string,
                              b: bool, c: bool, s2: string, h2: string, d: bool, m2: Meridiem)
    requires TakeTwelveHourClock(s) == Some((h1, a, m1, s1))
    requires TakeDash(s1) == Some((b, c, s2))
    requires TakeTwelveHourClock(s2) == Some((h2, d, m2, []))
    ensures ParseTwelveHour(s) == Some(TwelveHour(h1, a, m1, b, c, h2, d, m2))
  {
  }

  /** Every string of the 12-hour shape is recognised, and read back as that shape. */
  lemma ParseTwelveHourComplete(t: Slot)
    requires t.TwelveHour? && WellFormed(t)
    ensures ParseTwelveHour(Render(t)) == Some(t)
  {
    var second := TwelveHourClock(t.toHour, t.spaceBeforeToMeridiem, t.toMeridiem, []);
    var afterFirst := Dash(t.spaceBeforeDash, t.spaceAfterDash, second);
    var s := TwelveHourClock(t.fromHour, t.spaceBeforeFromMeridiem, t.fromMeridiem, afterFirst);
    TakeTwelveHourClockOf(t.fromHour, t.spaceBeforeFromMeridiem, t.fromMeridiem, afterFirst);
    assert second[0] == t.toHour[0];
    TakeDashOf(t.spaceBeforeDash, t.spaceAfterDash, second);
    TakeTwelveHourClockOf(t.toHour, t.spaceBeforeToMeridiem, t.toMeridiem, []);
    ParseTwelveHourSteps(s, t.fromHour, t.spaceBeforeFromMeridiem, t.fromMeridiem, afterFirst,
                         t.spaceBeforeDash, t.spaceAfterDash, second,
                         t.toHour, t.spaceBeforeToMeridiem, t.toMeridiem);
  }

  lemma ParseTwentyFourHourSteps(s: string, h1: string, m1: string, s1: string,
                                 b: bool, c: bool, s2: string, h2: string, m2: string)
    requires TakeTwentyFourHourClock(s) == Some((h1, m1, s1))
    requires TakeDash(s1) == Some((b, c, s2))
    requires TakeTwentyFourHourClock(s2) == Some((h2, m2, []))
    ensures ParseTwentyFourHour(s) == Some(TwentyFourHour(h1, m1, b, c, h2, m2))
  {
  }

  /** Every string of the 24-hour shape is recognised, and read back as that shape. */
  lemma ParseTwentyFourHourComplete(t: Slot)
    requires t.TwentyFourHour? && WellFormed(t)
    ensures ParseTwentyFourHour(Render(t)) == Some(t)
  {
    var second := TwentyFourHourClock(t.toHour, t.toMinute, []);
    var afterFirst := Dash(t.spaceBeforeDash, t.spaceAfterDash, second);
    var s := TwentyFourHourClock(t.fromHour, t.fromMinute, afterFirst);
    TakeTwentyFourHourClockOf(t.fromHour, t.fromMinute, afterFirst);
    assert second[0] == t.toHour[0];
    TakeDashOf(t.spaceBeforeDash, t.spaceAfterDash, second);
    TakeTwentyFourHourClockOf(t.toHour, t.toMinute, []);
    ParseTwentyFourHourSteps(s, t.fromHour, t.fromMinute, afterFirst,
                             t.spaceBeforeDash, t.spaceAfterDash, second, t.toHour, t.toMinute);
  }

  /** The time-slot check accepts exactly the strings of one of the two shapes. */
  lemma MatchesTimeSlotExactly(s: string)
    ensures MatchesTimeSlot(s) <==> IsTimeSlot(s)
  {
    if IsTimeSlot(s) {
      var t :| WellFormed(t) && Render(t) == s;
      if t.TwelveHour? {
        ParseTwelveHourComplete(t);
      } else {
        ParseTwentyFourHourComplete(t);
      }
    }
    if ParseTwelveHour(s).Some? {
      assert WellFormed(ParseTwelveHour(s).value) && Render(ParseTwelveHour(s).value) == s;
    } else if ParseTwentyFourHour(s).Some? {
      assert WellFormed(ParseTwentyFourHour(s).value) && Render(ParseTwentyFourHour(s).value) == s;
    }
  }

  /** The shape is all that is checked: hours beyond the clock are accepted. */
  lemma OutOfRangeHoursAccepted()
    ensures MatchesTimeSlot("25:00 - 26:00")
  {
    var t := TwentyFourHour("25", "00", true, true, "26", "00");
    var second := TwentyFourHourClock("26", "00", []);
    assert second == "26:00";
    var afterFirst := Dash(true, true, second);
    assert afterFirst == " - 26:00";
    assert TwentyFourHourClock("25", "00", afterFirst) == "25:00 - 26:00";
    ParseTwentyFourHourComplete(t);
  }

  /** The 12-hour example the reprompt offers, in the lower case every turn
      is reduced to, meets the declarative shape. */
  lemma TwelveHourExampleIsTimeSlot()
    ensures IsTimeSlot("10 am - 12 pm")
  {
    var t12 := TwelveHour("10", true, LowerAm, true, true, "12", true, LowerPm);
    var second := TwelveHourClock("12", true, LowerPm, []);
    assert second == "12 pm";
    var afterFirst := Dash(true, true, second);
    assert afterFirst == " - 12 pm";
    assert TwelveHourClock("10", true, LowerAm, afterFirst) == "10 am - 12 pm";
    assert WellFormed(t12) && Render(t12) == "10 am - 12 pm";
  }

  /** The handler's check accepts that example. */
  lemma TwelveHourExampleAccepted()
    ensures MatchesTimeSlot("10 am - 12 pm")
  {
    TwelveHourExampleIsTimeSlot();
    MatchesTimeSlotExactly("10 am - 12 pm");
  }

  /** The 24-hour example the reprompt offers. */
  lemma TwentyFourHourExampleAccepted()
    ensures MatchesTimeSlot("14:00 - 16:00")
  {
    var t24 := TwentyFourHour("14", "00", true, true, "16", "00");
    var second := TwentyFourHourClock("16", "00", []);
    assert second == "16:00";
    var afterFirst := Dash(true, true, second);
    assert afterFirst == " - 16:00";
    assert TwentyFourHourClock("14", "00", afterFirst) == "14:00 - 16:00";
    ParseTwentyFourHourComplete(t24);
  }

  /** A 12-hour slot needs a meridiem after each hour. */
  lemma MissingMeridiemRejected()
    ensures !MatchesTimeSlot("10 - 12 pm")
  {
    var s := "10 - 12 pm";
    assert s[..2] == "10" && s[2..] == " - 12 pm";
    assert TakeShortNumber(s) == Some(("10", " - 12 pm"));
    assert TakeSpace(" - 12 pm") == (true, "- 12 pm");
    assert TakeMeridiem("- 12 pm").None?;
    assert TakeTwelveHourClock(s).None?;
    assert TakeTwoDigits(s) == Some(("10", " - 12 pm"));
    assert TakeChar(':', " - 12 pm").None?;
    assert TakeTwentyFourHourClock(s).None?;
  }

  /** A 24-hour slot needs two-digit hours: "9:00" is not accepted. */
  lemma SingleDigitTwentyFourHourRejected()
    ensures !MatchesTimeSlot("9:00 - 17:00")
  {
    var s := "9:00 - 17:00";
    assert s[..1] == "9" && s[1..] == ":00 - 17:00" && !IsDigit(s[1]);
    assert TakeShortNumber(s) == Some(("9", ":00 - 17:00"));
    assert TakeSpace(":00 - 17:00") == (false, ":00 - 17:00");
    assert TakeMeridiem(":00 - 17:00").None?;
    assert TakeTwelveHourClock(s).None?;
    assert TakeTwoDigits(s).None?;
    assert TakeTwentyFourHourClock(s).None?;
  }
}
