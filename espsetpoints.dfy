/**
 * get_zone_setpoints (scripts/common/esp-query/esp-query.py:24-109): the heating and cooling
 * setpoints of the zone control functions of a control file, read with getLine from a cursor
 * that only moves forward.
 *
 * Each loop of the source has a specification function that says what the rest of the loop
 * does from a given iteration, file position and text; the methods keep that value fixed.
 */
module EspSetpoints {
  import opened Wrappers
  import opened PyText
  import opened EspLines

  /** The text built so far and the file position. */
  datatype Cursor = Cursor(text: string, pos: nat)

  // ---------------------------------------------------------------- the text written

  /** The indentation of a period's lines: two more spaces when the function follows the
      calendar. */
  function Extra(allDays: bool): string {
    if allDays then "" else "  "
  }

  function Header(calendarDays: int): string {
    "zone_setpoints:" + "\n  number_of_calender_daytypes=" + IntToString(calendarDays)
  }

  function FunctionCount(n: int): string {
    "\n  number_of_functions=" + IntToString(n)
  }

  function FunctionHead(k: nat, allDays: bool): string {
    "\n  function#" + IntToString(k + 1) + ":" + "\n    day_types=" + (if allDays then "all" else "follows_calender")
  }

  function DayHead(allDays: bool, k: nat): string {
    if allDays then "" else "\n    daytype#" + IntToString(k + 1) + ":"
  }

  function Validity(xtra: string, start: string, end: string): string {
    "\n" + xtra + "    validity_start_day=" + start + "\n" + xtra + "    validity_end_day=" + end
  }

  function PeriodCount(xtra: string, n: int): string {
    "\n" + xtra + "    number_of_periods=" + IntToString(n)
  }

  /** What a day type writes before its periods. */
  function DayText(allDays: bool, k: nat, start: string, end: string, numPer: int): string {
    var xtra := Extra(allDays);
    DayHead(allDays, k) + Validity(xtra, start, end) + PeriodCount(xtra, numPer)
  }

  function PeriodHead(xtra: string, k: nat): string {
    "\n" + xtra + "    period#" + IntToString(k + 1) + ":"
  }

  function ControlLines(xtra: string, name: string, hour: string): string {
    "\n" + xtra + "      control_type=" + name + "\n" + xtra + "      starting_at_hour=" + hour
  }

  function SetpointLines(xtra: string, heat: string, cool: string): string {
    "\n" + xtra + "      heating_setpoint=" + heat + "\n" + xtra + "      cooling_setpoint=" + cool
  }

  function Mappings(m: string): string {
    "\n  function_zone_mappings=" + m
  }

  /** The control types the script names, with the text it writes for them. */
  function ControlName(ct: string): Option<string> {
    if ct == "1" then Some("basic")
    else if ct == "2" then Some("none")
    else if ct == "11" then Some("match multi-sensor (ideal)")
    else None
  }

  // ---------------------------------------------------------------- what the loops compute

  /** One control period (scripts/common/esp-query/esp-query.py:69-103). */
  function Period(lines: seq<string>, c: Cursor, xtra: string, k: nat): (r: Res<Cursor>)
    requires c.pos <= |lines|
    ensures r.Ok? ==> c.pos <= r.value.pos <= |lines|
  {
    var head := c.text + PeriodHead(xtra, k);
    var ls := LineDown(lines, c.pos, 1);
    var p1 := Advance(lines, c.pos, 1);
    match At(ls, 1)
    case Fail(why) => Fail(why)
    case Ok(ct) =>
      match ControlName(ct)
      case None => Ok(Cursor(head, Advance(lines, p1, 2)))
      case Some(name) =>
        match At(ls, 2)
        case Fail(why) => Fail(why)
        case Ok(hour) =>
          var body := head + ControlLines(xtra, name, hour);
          if ct == "2" then Ok(Cursor(body, Advance(lines, p1, 1)))
          else
            var ls2 := LineDown(lines, p1, 2);
            var p2 := Advance(lines, p1, 2);
            if ct == "11" then Ok(Cursor(body + SetpointLines(xtra, "n/a", "n/a"), p2))
            else
              match At(ls2, 4)
              case Fail(why) => Fail(why)
              case Ok(heat) =>
                match At(ls2, 5)
                case Fail(why) => Fail(why)
                case Ok(cool) => Ok(Cursor(body + SetpointLines(xtra, heat, cool), p2))
  }

  /** Periods `k` to `n - 1` of a day type. */
  function Periods(lines: seq<string>, c: Cursor, xtra: string, k: nat, n: int): (r: Res<Cursor>)
    requires c.pos <= |lines|
    ensures r.Ok? ==> c.pos <= r.value.pos <= |lines|
    decreases n - k
  {
    if k >= n then Ok(c)
    else
      match Period(lines, c, xtra, k)
      case Fail(why) => Fail(why)
      case Ok(c2) => Periods(lines, c2, xtra, k + 1, n)
  }

  /** One day type: its validity days, its number of periods and the periods
      (scripts/common/esp-query/esp-query.py:55-68). */
  function DayType(lines: seq<string>, c: Cursor, allDays: bool, k: nat): (r: Res<Cursor>)
    requires c.pos <= |lines|
    ensures r.Ok? ==> c.pos <= r.value.pos <= |lines|
  {
    var xtra := Extra(allDays);
    var ls := LineDown(lines, c.pos, 1);
    var p1 := Advance(lines, c.pos, 1);
    match At(ls, 0)
    case Fail(why) => Fail(why)
    case Ok(start) =>
      match At(ls, 1)
      case Fail(why) => Fail(why)
      case Ok(end) =>
        var ls2 := LineDown(lines, p1, 1);
        var p2 := Advance(lines, p1, 1);
        match At(ls2, 0)
        case Fail(why) => Fail(why)
        case Ok(np) =>
          match Int(np)
          case Fail(why) => Fail(why)
          case Ok(numPer) =>
            Periods(lines, Cursor(c.text + DayText(allDays, k, start, end, numPer), p2), xtra, 0, numPer)
  }

  /** Day types `k` to `n - 1` of a function. */
  function DayTypes(lines: seq<string>, c: Cursor, allDays: bool, k: nat, n: int): (r: Res<Cursor>)
    requires c.pos <= |lines|
    ensures r.Ok? ==> c.pos <= r.value.pos <= |lines|
    decreases n - k
  {
    if k >= n then Ok(c)
    else
      match DayType(lines, c, allDays, k)
      case Fail(why) => Fail(why)
      case Ok(c2) => DayTypes(lines, c2, allDays, k + 1, n)
  }

  /** The day-types flag of a function: "0" follows the calendar and "1" is one day type for
      all days; any other flag ends the script. */
  function DayTypesOf(flag: string, calendarDays: int): (r: Res<(bool, int)>)
    ensures flag == "0" ==> r == Ok((false, calendarDays))
    ensures flag == "1" ==> r == Ok((true, 1))
    ensures flag != "0" && flag != "1" ==>
      r == Fail(ErrorExit("esp-query error: unrecognised daytypes flag: " + flag + "\n"))
  {
    if flag == "0" then Ok((false, calendarDays))
    else if flag == "1" then Ok((true, 1))
    else Fail(ErrorExit("esp-query error: unrecognised daytypes flag: " + flag + "\n"))
  }

  /** One control function (scripts/common/esp-query/esp-query.py:39-54). */
  function Function(lines: seq<string>, c: Cursor, calendarDays: int, k: nat): (r: Res<Cursor>)
    requires c.pos <= |lines|
    ensures r.Ok? ==> c.pos <= r.value.pos <= |lines|
  {
    var ls := LineDown(lines, c.pos, 6);
    var p := Advance(lines, c.pos, 6);
    match At(ls, 0)
    case Fail(why) => Fail(why)
    case Ok(flag) =>
      match DayTypesOf(flag, calendarDays)
      case Fail(why) => Fail(why)
      case Ok(days) =>
        DayTypes(lines, Cursor(c.text + FunctionHead(k, days.0), p), days.0, 0, days.1)
  }

  /** Functions `k` to `n - 1`. */
  function Functions(lines: seq<string>, c: Cursor, calendarDays: int, k: nat, n: int): (r: Res<Cursor>)
    requires c.pos <= |lines|
    ensures r.Ok? ==> c.pos <= r.value.pos <= |lines|
    decreases n - k
  {
    if k >= n then Ok(c)
    else
      match Function(lines, c, calendarDays, k)
      case Fail(why) => Fail(why)
      case Ok(c2) => Functions(lines, c2, calendarDays, k + 1, n)
  }

  /** The position just after the first `* Building` line at or after `pos`. */
  function AfterBuilding(lines: seq<string>, pos: nat): (r: Option<nat>)
    requires pos <= |lines|
    ensures r.Some? ==> pos < r.value <= |lines|
    decreases |lines| - pos
  {
    if pos == |lines| then None
    else if HeadIs(Tokens(lines[pos]), "*", "Building") then Some(pos + 1)
    else AfterBuilding(lines, pos + 1)
  }

  /** The number of functions, two lines below the `* Building` line. */
  function FunctionsDeclared(lines: seq<string>, p0: nat): Res<int>
    requires p0 <= |lines|
  {
    match At(LineDown(lines, p0, 2), 0)
    case Fail(why) => Fail(why)
    case Ok(nf) => Int(nf)
  }

  /** The text after the `* Building` line: the functions, then the zone mappings
      (scripts/common/esp-query/esp-query.py:35-106). */
  function AfterHeader(lines: seq<string>, p0: nat, calendarDays: int, text: string): Res<string>
    requires p0 <= |lines|
  {
    match FunctionsDeclared(lines, p0)
    case Fail(why) => Fail(why)
    case Ok(numFuncs) =>
      var p := Advance(lines, p0, 2);
      match Functions(lines, Cursor(text + FunctionCount(numFuncs), p), calendarDays, 0, numFuncs)
      case Fail(why) => Fail(why)
      case Ok(c) =>
        match At(LineDown(lines, c.pos, 2), 0)
        case Fail(why) => Fail(why)
        case Ok(m) => Ok(c.text + Mappings(m))
  }

  /** What get_zone_setpoints returns for a control file and the number of calendar day
      types; with no `* Building` line its first loop never ends. */
  function ZoneSetpoints(lines: seq<string>, calendarDays: int): Res<string> {
    match AfterBuilding(lines, 0)
    case None => Fail(Hangs)
    case Some(p0) => AfterHeader(lines, p0, calendarDays, Header(calendarDays))
  }

  // ---------------------------------------------------------------- properties

  /** What a period with at least three tokens on its first line reads, while the file
      holds its lines: an unknown control type skips two more lines and adds only the
      period's header; type 2 reads one more line; types 1 and 11 read two more lines, and
      type 1 takes its heating and cooling setpoints from tokens 4 and 5 of the last one. */
  lemma PeriodReads(lines: seq<string>, c: Cursor, xtra: string, k: nat)
    requires c.pos + 3 <= |lines| && |Tokens(lines[c.pos])| >= 3
    ensures var ls := Tokens(lines[c.pos]);
      var ct := ls[1];
      var head := c.text + PeriodHead(xtra, k);
      var body := head + ControlLines(xtra, ControlName(ct).GetOr(""), ls[2]);
      var last := Tokens(lines[c.pos + 2]);
      && (ControlName(ct).None? ==> Period(lines, c, xtra, k) == Ok(Cursor(head, c.pos + 3)))
      && (ct == "2" ==> Period(lines, c, xtra, k) == Ok(Cursor(body, c.pos + 2)))
      && (ct == "11" ==> Period(lines, c, xtra, k) == Ok(Cursor(body + SetpointLines(xtra, "n/a", "n/a"), c.pos + 3)))
      && (ct == "1" && |last| >= 6 ==>
            Period(lines, c, xtra, k) == Ok(Cursor(body + SetpointLines(xtra, last[4], last[5]), c.pos + 3)))
  {
    var ls := Tokens(lines[c.pos]);
    var ls2 := Tokens(lines[c.pos + 2]);
    assert LineDown(lines, c.pos, 1) == ls;
    assert LineDown(lines, c.pos + 1, 2) == ls2;
    PeriodOfTokens(lines, c, xtra, k, ls, ls2);
  }

  /** The same, with the tokens of the period's first and last lines given. */
  lemma PeriodOfTokens(lines: seq<string>, c: Cursor, xtra: string, k: nat, ls: seq<string>, last: seq<string>)
    requires c.pos + 3 <= |lines| && |ls| >= 3
    requires LineDown(lines, c.pos, 1) == ls && LineDown(lines, c.pos + 1, 2) == last
    ensures var ct := ls[1];
      var head := c.text + PeriodHead(xtra, k);
      var body := head + ControlLines(xtra, ControlName(ct).GetOr(""), ls[2]);
      && (ControlName(ct).None? ==> Period(lines, c, xtra, k) == Ok(Cursor(head, c.pos + 3)))
      && (ct == "2" ==> Period(lines, c, xtra, k) == Ok(Cursor(body, c.pos + 2)))
      && (ct == "11" ==> Period(lines, c, xtra, k) == Ok(Cursor(body + SetpointLines(xtra, "n/a", "n/a"), c.pos + 3)))
      && (ct == "1" && |last| >= 6 ==>
            Period(lines, c, xtra, k) == Ok(Cursor(body + SetpointLines(xtra, last[4], last[5]), c.pos + 3)))
  {
    var ct := ls[1];
    if ControlName(ct).Some? {
      var body := c.text + PeriodHead(xtra, k) + ControlLines(xtra, ControlName(ct).value, ls[2]);
      if ct != "2" {
        SetpointPeriod(lines, c, xtra, k, ls, last, body);
      }
    }
  }

  /** A period of type 1 or 11 reads its setpoints from the line two lines down. */
  lemma SetpointPeriod(lines: seq<string>, c: Cursor, xtra: string, k: nat, ls: seq<string>, last: seq<string>,
                       body: string)
    requires c.pos + 3 <= |lines| && |ls| >= 3 && (ls[1] == "1" || ls[1] == "11")
    requires LineDown(lines, c.pos, 1) == ls && LineDown(lines, c.pos + 1, 2) == last
    requires body == c.text + PeriodHead(xtra, k) + ControlLines(xtra, ControlName(ls[1]).value, ls[2])
    ensures ls[1] == "11" ==> Period(lines, c, xtra, k) == Ok(Cursor(body + SetpointLines(xtra, "n/a", "n/a"), c.pos + 3))
    ensures ls[1] == "1" && |last| >= 6 ==>
      Period(lines, c, xtra, k) == Ok(Cursor(body + SetpointLines(xtra, last[4], last[5]), c.pos + 3))
  {
    assert Advance(lines, Advance(lines, c.pos, 1), 2) == c.pos + 3;
  }

  /** A function whose day-types flag is "0" has the calendar's number of day types, each
      with its own header; one whose flag is "1" has a single day type for all days; any
      other flag ends the script with an error. */
  lemma DayTypesFlag(lines: seq<string>, c: Cursor, calendarDays: int, k: nat)
    requires c.pos + 6 <= |lines| && |Tokens(lines[c.pos + 5])| >= 1
    ensures var flag := Tokens(lines[c.pos + 5])[0];
      var p := c.pos + 6;
      && (flag == "0" ==>
            Function(lines, c, calendarDays, k)
            == DayTypes(lines, Cursor(c.text + FunctionHead(k, false), p), false, 0, calendarDays))
      && (flag == "1" ==>
            Function(lines, c, calendarDays, k)
            == DayType(lines, Cursor(c.text + FunctionHead(k, true), p), true, 0))
      && (flag != "0" && flag != "1" ==>
            Function(lines, c, calendarDays, k)
            == Fail(ErrorExit("esp-query error: unrecognised daytypes flag: " + flag + "\n")))
  {
    assert LineDown(lines, c.pos, 6) == Tokens(lines[c.pos + 5]);
    var flag := Tokens(lines[c.pos + 5])[0];
    if flag == "1" {
      var c1 := Cursor(c.text + FunctionHead(k, true), c.pos + 6);
      match DayType(lines, c1, true, 0)
      case Fail(_) =>
      case Ok(c2) => assert DayTypes(lines, c2, true, 1, 1) == Ok(c2);
    }
  }

  /** The setpoints text starts with the calendar's day-type count and the number of
      functions declared two lines below the first `* Building` line. */
  lemma SetpointsHeader(lines: seq<string>, calendarDays: int)
    requires ZoneSetpoints(lines, calendarDays).Ok?
    ensures AfterBuilding(lines, 0).Some? && FunctionsDeclared(lines, AfterBuilding(lines, 0).value).Ok?
    ensures var n := FunctionsDeclared(lines, AfterBuilding(lines, 0).value).value;
      Header(calendarDays) + FunctionCount(n) <= ZoneSetpoints(lines, calendarDays).value
  {
    var b := AfterBuilding(lines, 0).value;
    var n := FunctionsDeclared(lines, b).value;
    var start := Cursor(Header(calendarDays) + FunctionCount(n), Advance(lines, b, 2));
    var c := Functions(lines, start, calendarDays, 0, n).value;
    var m := At(LineDown(lines, c.pos, 2), 0).value;
    FunctionsExtend(lines, start, calendarDays, 0, n);
    Prefix(c.text, Mappings(m));
    PrefixTrans(start.text, c.text, c.text + Mappings(m));
  }

  /** The number of functions declared is the first token of the second line below the
      `* Building` line, read as an integer. */
  lemma FunctionsDeclaredAt(lines: seq<string>, p0: nat)
    requires p0 + 2 <= |lines|
    ensures FunctionsDeclared(lines, p0).Ok? <==>
      |Tokens(lines[p0 + 1])| >= 1 && ParseInt(Tokens(lines[p0 + 1])[0]).Some?
    ensures FunctionsDeclared(lines, p0).Ok? ==>
      Some(FunctionsDeclared(lines, p0).value) == ParseInt(Tokens(lines[p0 + 1])[0])
  {
    assert LineDown(lines, p0, 2) == Tokens(lines[p0 + 1]);
  }

  /** The functions loop only appends to the text. */
  lemma {:induction false} FunctionsExtend(lines: seq<string>, c: Cursor, calendarDays: int, k: nat, n: int)
    requires c.pos <= |lines| && Functions(lines, c, calendarDays, k, n).Ok?
    ensures c.text <= Functions(lines, c, calendarDays, k, n).value.text
    decreases n - k
  {
    if k < n {
      var c2 := Function(lines, c, calendarDays, k).value;
      FunctionExtends(lines, c, calendarDays, k);
      FunctionsExtend(lines, c2, calendarDays, k + 1, n);
    }
  }

  lemma FunctionExtends(lines: seq<string>, c: Cursor, calendarDays: int, k: nat)
    requires c.pos <= |lines| && Function(lines, c, calendarDays, k).Ok?
    ensures c.text <= Function(lines, c, calendarDays, k).value.text
  {
    var ls := LineDown(lines, c.pos, 6);
    var days := DayTypesOf(ls[0], calendarDays).value;
    var c1 := Cursor(c.text + FunctionHead(k, days.0), Advance(lines, c.pos, 6));
    DayTypesExtend(lines, c1, days.0, 0, days.1);
  }

  lemma {:induction false} DayTypesExtend(lines: seq<string>, c: Cursor, allDays: bool, k: nat, n: int)
    requires c.pos <= |lines| && DayTypes(lines, c, allDays, k, n).Ok?
    ensures c.text <= DayTypes(lines, c, allDays, k, n).value.text
    decreases n - k
  {
    if k < n {
      var c2 := DayType(lines, c, allDays, k).value;
      DayTypeExtends(lines, c, allDays, k);
      DayTypesExtend(lines, c2, allDays, k + 1, n);
    }
  }

  lemma DayTypeExtends(lines: seq<string>, c: Cursor, allDays: bool, k: nat)
    requires c.pos <= |lines| && DayType(lines, c, allDays, k).Ok?
    ensures c.text <= DayType(lines, c, allDays, k).value.text
  {
    var xtra := Extra(allDays);
    var ls := LineDown(lines, c.pos, 1);
    var p1 := Advance(lines, c.pos, 1);
    var ls2 := LineDown(lines, p1, 1);
    match At(ls, 0)
    case Fail(_) =>
    case Ok(start) =>
      match At(ls, 1)
      case Fail(_) =>
      case Ok(end) =>
        match At(ls2, 0)
        case Fail(_) =>
        case Ok(np) =>
          match Int(np)
          case Fail(_) =>
          case Ok(numPer) =>
            var added := DayText(allDays, k, start, end, numPer);
            var from := Cursor(c.text + added, Advance(lines, p1, 1));
            Prefix(c.text, added);
            PeriodsExtend(lines, from, xtra, 0, numPer);
            PrefixTrans(c.text, from.text, DayType(lines, c, allDays, k).value.text);
  }

  lemma {:induction false} PeriodsExtend(lines: seq<string>, c: Cursor, xtra: string, k: nat, n: int)
    requires c.pos <= |lines| && Periods(lines, c, xtra, k, n).Ok?
    ensures c.text <= Periods(lines, c, xtra, k, n).value.text
    decreases n - k
  {
    if k < n {
      var c2 := Period(lines, c, xtra, k).value;
      PeriodExtends(lines, c, xtra, k);
      PeriodsExtend(lines, c2, xtra, k + 1, n);
      PrefixTrans(c.text, c2.text, Periods(lines, c, xtra, k, n).value.text);
    }
  }

  lemma PeriodExtends(lines: seq<string>, c: Cursor, xtra: string, k: nat)
    requires c.pos <= |lines| && Period(lines, c, xtra, k).Ok?
    ensures c.text <= Period(lines, c, xtra, k).value.text
  {
    var t := Period(lines, c, xtra, k).value.text;
    var head := c.text + PeriodHead(xtra, k);
    Prefix(c.text, PeriodHead(xtra, k));
    if t != head {
      var ls := LineDown(lines, c.pos, 1);
      var body := head + ControlLines(xtra, ControlName(ls[1]).value, ls[2]);
      Prefix(head, ControlLines(xtra, ControlName(ls[1]).value, ls[2]));
      PrefixTrans(c.text, head, body);
      if t != body {
        var rest := t[|body|..];
        assert t == body + rest;
        Prefix(body, rest);
        PrefixTrans(c.text, body, t);
      }
    }
  }

  lemma Prefix(a: string, b: string)
    ensures a <= a + b
  {
  }

  lemma PrefixTrans(a: string, b: string, c: string)
    requires a <= b && b <= c
    ensures a <= c
  {
  }

  // ---------------------------------------------------------------- the methods

  /** The loop over the periods of a day type. */
  method ReadPeriods(f: Reader, text: string, xtra: string, n: int) returns (r: Res<string>)
    requires f.Valid()
    modifies f
    ensures f.Valid()
    ensures r.Ok? ==> Periods(f.lines, Cursor(text, old(f.pos)), xtra, 0, n) == Ok(Cursor(r.value, f.pos))
    ensures r.Fail? ==> Periods(f.lines, Cursor(text, old(f.pos)), xtra, 0, n) == Fail(r.why)
  {
    var s := text;
    var k := 0;
    while k < n
      invariant f.Valid()
      invariant Periods(f.lines, Cursor(text, old(f.pos)), xtra, 0, n) == Periods(f.lines, Cursor(s, f.pos), xtra, k, n)
      decreases n - k
    {
      ghost var c := Cursor(s, f.pos);
      s := s + PeriodHead(xtra, k);
      var ls := f.GetLine(1);
      if |ls| < 2 {
        return Fail(Raised(IndexError));
      }
      var ct := ls[1];
      var name := ControlName(ct);
      if name.None? {
        ls := f.GetLine(2);
        k := k + 1;
        continue;
      }
      if |ls| < 3 {
        return Fail(Raised(IndexError));
      }
      s := s + ControlLines(xtra, name.value, ls[2]);
      if ct == "2" {
        ls := f.GetLine(1);
      } else {
        ls := f.GetLine(2);
        if ct == "11" {
          s := s + SetpointLines(xtra, "n/a", "n/a");
        } else {
          if |ls| < 6 {
            return Fail(Raised(IndexError));
          }
          s := s + SetpointLines(xtra, ls[4], ls[5]);
        }
      }
      assert Period(f.lines, c, xtra, k) == Ok(Cursor(s, f.pos));
      k := k + 1;
    }
    return Ok(s);
  }

  /** The loop over the day types of a function. */
  method ReadDayTypes(f: Reader, text: string, allDays: bool, n: int) returns (r: Res<string>)
    requires f.Valid()
    modifies f
    ensures f.Valid()
    ensures r.Ok? ==> DayTypes(f.lines, Cursor(text, old(f.pos)), allDays, 0, n) == Ok(Cursor(r.value, f.pos))
    ensures r.Fail? ==> DayTypes(f.lines, Cursor(text, old(f.pos)), allDays, 0, n) == Fail(r.why)
  {
    var s := text;
    var k := 0;
    var xtra := Extra(allDays);
    while k < n
      invariant f.Valid()
      invariant DayTypes(f.lines, Cursor(text, old(f.pos)), allDays, 0, n) == DayTypes(f.lines, Cursor(s, f.pos), allDays, k, n)
      decreases n - k
    {
      ghost var c := Cursor(s, f.pos);
      var ls := f.GetLine(1);
      if |ls| < 2 {
        return Fail(Raised(IndexError));
      }
      var start, end := ls[0], ls[1];
      ls := f.GetLine(1);
      if |ls| < 1 {
        return Fail(Raised(IndexError));
      }
      var numPer := Int(ls[0]);
      if numPer.Fail? {
        return Fail(numPer.why);
      }
      s := s + DayText(allDays, k, start, end, numPer.value);
      var pr := ReadPeriods(f, s, xtra, numPer.value);
      if pr.Fail? {
        return Fail(pr.why);
      }
      s := pr.value;
      assert DayType(f.lines, c, allDays, k) == Ok(Cursor(s, f.pos));
      k := k + 1;
    }
    return Ok(s);
  }

  /** The loop over the control functions. */
  method ReadFunctions(f: Reader, text: string, calendarDays: int, n: int) returns (r: Res<string>)
    requires f.Valid()
    modifies f
    ensures f.Valid()
    ensures r.Ok? ==> Functions(f.lines, Cursor(text, old(f.pos)), calendarDays, 0, n) == Ok(Cursor(r.value, f.pos))
    ensures r.Fail? ==> Functions(f.lines, Cursor(text, old(f.pos)), calendarDays, 0, n) == Fail(r.why)
  {
    var s := text;
    var k := 0;
    while k < n
      invariant f.Valid()
      invariant Functions(f.lines, Cursor(text, old(f.pos)), calendarDays, 0, n)
             == Functions(f.lines, Cursor(s, f.pos), calendarDays, k, n)
      decreases n - k
    {
      ghost var c := Cursor(s, f.pos);
      var ls := f.GetLine(6);
      if |ls| < 1 {
        return Fail(Raised(IndexError));
      }
      var days := DayTypesOf(ls[0], calendarDays);
      if days.Fail? {
        return Fail(days.why);
      }
      s := s + FunctionHead(k, days.value.0);
      var dr := ReadDayTypes(f, s, days.value.0, days.value.1);
      if dr.Fail? {
        return Fail(dr.why);
      }
      s := dr.value;
      assert Function(f.lines, c, calendarDays, k) == Ok(Cursor(s, f.pos));
      k := k + 1;
    }
    return Ok(s);
  }

  /** The part of get_zone_setpoints after the `* Building` line. */
  method ReadAfterHeader(f: Reader, calendarDays: int, text: string) returns (r: Res<string>)
    requires f.Valid()
    modifies f
    ensures r == AfterHeader(f.lines, old(f.pos), calendarDays, text)
  {
    var ls := f.GetLine(2);
    if |ls| < 1 {
      return Fail(Raised(IndexError));
    }
    var numFuncs := Int(ls[0]);
    if numFuncs.Fail? {
      return Fail(numFuncs.why);
    }
    assert numFuncs == FunctionsDeclared(f.lines, old(f.pos));
    var fr := ReadFunctions(f, text + FunctionCount(numFuncs.value), calendarDays, numFuncs.value);
    if fr.Fail? {
      return Fail(fr.why);
    }
    ls := f.GetLine(2);
    if |ls| < 1 {
      return Fail(Raised(IndexError));
    }
    return Ok(fr.value + Mappings(ls[0]));
  }

  /** get_zone_setpoints (scripts/common/esp-query/esp-query.py:24-109). */
  method ReadZoneSetpoints(f: Reader, calendarDays: int) returns (r: Res<string>)
    requires f.Valid() && f.pos == 0
    modifies f
    ensures r == ZoneSetpoints(f.lines, calendarDays)
  {
    while true
      invariant f.Valid()
      invariant AfterBuilding(f.lines, 0) == AfterBuilding(f.lines, f.pos)
      decreases |f.lines| - f.pos
    {
      if f.pos == |f.lines| {
        return Fail(Hangs);
      }
      var ls := f.GetLine(1);
      if |ls| >= 2 && ls[0] == "*" && ls[1] == "Building" {
        break;
      }
    }
    r := ReadAfterHeader(f, calendarDays, Header(calendarDays));
  }
}
