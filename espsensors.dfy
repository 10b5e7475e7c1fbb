/**
 * The files esp-query reads for the MRT sensors and the CFD domains of a zone: the view
 * factor file (scripts/common/esp-query/esp-query.py:379-431) and the CFD domain files
 * (scripts/common/esp-query/esp-query.py:473-521).
 */
module EspSensors {
  import opened Wrappers
  import opened PyText
  import opened EspLines
  import opened EspTables

  // ---------------------------------------------------------------- MRT sensor names (lines 380-430)

  /** The variables of the loop over a view factor file. `countdown2` is the scan's global
      countdown, which the loop sets to 0 and leaves where it ends; the two counts are globals
      too, kept from one zone to the next. */
  datatype MrtState = MrtState(
    line: nat,                // i: the number of lines read
    countdown1: int,
    countdown2: int,
    active1: bool,            // the next line describes a sensor
    active2: bool,            // the lines hold view factors
    names: seq<string>,       // ls2: the sensor names found
    views: nat,               // j: the view factor tables read since the last sensor
    pending: nat,             // len(ls3): the view factors read of the current table
    sensors: Option<int>,     // i_nsen, None before it is first assigned
    surfaces: Option<int>)    // i_nsur

  /** The loop variables before the first line, given the two global counts. */
  function MrtStart(sensors: Option<int>, surfaces: Option<int>): MrtState {
    MrtState(0, 0, 0, false, false, [], 0, 0, sensors, surfaces)
  }

  /** `if c > 0: c -= 1; if c == 0: active = 1`, as a pair (counter, active). */
  function Tick(c: int, active: bool): (r: (int, bool))
    ensures c > 0 ==> r.0 == c - 1 && (r.1 <==> active || c == 1)
    ensures c <= 0 ==> r == (c, active)
  {
    if c > 0 then (c - 1, active || c - 1 == 0) else (c, active)
  }

  /** The number of view factors on a line: its comma separated fields, without the empty
      one a trailing comma leaves. */
  function FactorCount(line: string): (n: nat)
    ensures n <= |SplitOn(Strip(line), ',')|
  {
    var ls := SplitOn(Strip(line), ',');
    if ls[|ls| - 1] == "" then |ls| - 1 else |ls|
  }

  /** One pass of the loop body; the flag says whether it ends the loop (`break`). */
  function MrtLine(line: string, st: MrtState): (r: Res<(MrtState, bool)>)
    ensures r.Ok? ==> r.value.0.line == st.line + 1
    ensures r.Ok? ==> |st.names| <= |r.value.0.names| <= |st.names| + 1
    ensures r.Ok? && r.value.1 ==> r.value.0.sensors == Some(|r.value.0.names|)
  {
    var (c1, a1) := Tick(st.countdown1, st.active1);
    var (c2, a2) := Tick(st.countdown2, st.active2);
    var st1 := st.(line := st.line + 1, countdown1 := c1, active1 := a1, countdown2 := c2, active2 := a2);
    if st1.line == 5 then
      var ls := Tokens(line);
      var a :- At(ls, 0);
      var nsen :- Int(a);
      var b :- At(ls, 1);
      var nsur :- Int(b);
      Ok((st1.(sensors := Some(nsen), surfaces := Some(nsur)), false))
    else if Strip(line) == "*MRT_SENSOR" then
      Ok((st1.(countdown1 := 2), false))
    else if st1.active1 then
      var name :- At(Tokens(line), 8);
      var names := st1.names + [name];
      if st1.sensors.None? then Fail(Raised(NameError))
      else if |names| == st1.sensors.value then Ok((st1.(names := names), true))
      else Ok((st1.(names := names, active1 := false), false))
    else if Strip(line) == "*MRTVIEW" then
      Ok((st1.(countdown2 := 1), false))
    else if st1.active2 then
      var pending := st1.pending + FactorCount(line);
      if st1.surfaces.None? then Fail(Raised(NameError))
      else if pending == st1.surfaces.value then
        if st1.views + 1 == 6 then Ok((st1.(pending := 0, views := 0, active1 := true, active2 := false), false))
        else Ok((st1.(pending := 0, views := st1.views + 1), false))
      else Ok((st1.(pending := pending), false))
    else Ok((st1, false))
  }

  /** The loop over a view factor file. */
  function MrtNames(lines: seq<string>, sensors: Option<int>, surfaces: Option<int>): Res<(MrtState, bool)> {
    Steps(MrtLine, lines, 0, MrtStart(sensors, surfaces))
  }

  /** When the loop breaks it has as many names as the sensor count of the file says. */
  lemma MrtStops(lines: seq<string>, sensors: Option<int>, surfaces: Option<int>)
    ensures MrtNames(lines, sensors, surfaces).Ok? ==>
      var (r, broke) := MrtNames(lines, sensors, surfaces).value;
      broke ==> r.sensors == Some(|r.names|)
  {
    StepsStop(MrtLine, (s: MrtState) => s.sensors == Some(|s.names|), lines, 0, MrtStart(sensors, surfaces));
  }

  /** The for loop over the view factor file (lines 391-424). */
  method ReadMrtNames(lines: seq<string>, sensors: Option<int>, surfaces: Option<int>) returns (r: Res<(MrtState, bool)>)
    ensures r == MrtNames(lines, sensors, surfaces)
  {
    var st := MrtStart(sensors, surfaces);
    for k := 0 to |lines|
      invariant Steps(MrtLine, lines, k, st) == MrtNames(lines, sensors, surfaces)
    {
      var step := MrtLine(lines[k], st);
      if step.Fail? {
        return Fail(step.why);
      }
      st := step.value.0;
      if step.value.1 {
        return Ok((st, true));
      }
    }
    r := Ok((st, false));
  }

  // ---------------------------------------------------------------- CFD domain indicators (lines 474-492)

  /** The indicator of one domain file: 0 for a zone without one, 1 when the second token of
      its second line is "0", 2 otherwise. */
  function DomainCode(files: map<string, seq<string>>, entry: string): (r: Res<string>)
    ensures r.Ok? ==> r.value in {"0", "1", "2"}
    ensures entry == "" ==> r == Ok("0")
  {
    if entry == "" then Ok("0")
    else
      var lines :- Open(files, entry);
      var x :- At(LineDown(lines, 0, 2), 1);
      Ok(if x == "0" then "1" else "2")
  }

  /** `f` applied to each entry in order; the first failure ends the loop. */
  function Each(f: string -> Res<string>, entries: seq<string>): (r: Res<seq<string>>)
  {
    if entries == [] then Ok([])
    else
      var init :- Each(f, entries[..|entries| - 1]);
      var last :- f(entries[|entries| - 1]);
      Ok(init + [last])
  }

  /** `Each` succeeds when `f` succeeds on every entry, and then holds what `f` gives for each;
      otherwise it fails. */
  lemma {:induction false} EachMeaning(f: string -> Res<string>, entries: seq<string>)
    ensures Each(f, entries).Ok? <==> forall k :: 0 <= k < |entries| ==> f(entries[k]).Ok?
    ensures Each(f, entries).Ok? ==>
      && |Each(f, entries).value| == |entries|
      && forall k :: 0 <= k < |entries| ==> Each(f, entries).value[k] == f(entries[k]).value
  {
    if entries != [] {
      var init := entries[..|entries| - 1];
      EachMeaning(f, init);
      assert forall k :: 0 <= k < |init| ==> init[k] == entries[k];
    }
  }

  /** Once `f` fails on an entry, `Each` fails as it did, whatever follows. */
  lemma {:induction false} EachFails(f: string -> Res<string>, entries: seq<string>, k: nat)
    requires k <= |entries| && Each(f, entries[..k]).Fail?
    ensures Each(f, entries) == Fail(Each(f, entries[..k]).why)
    decreases |entries| - k
  {
    if k == |entries| {
      assert entries[..k] == entries;
    } else {
      assert entries[..|entries| - 1][..k] == entries[..k];
      EachFails(f, entries[..|entries| - 1], k);
    }
  }

  /** The indicators of the domain files in order; the first failure ends the loop. */
  function DomainCodes(files: map<string, seq<string>>, entries: seq<string>): Res<seq<string>> {
    Each(e => DomainCode(files, e), entries)
  }

  /** The value of CFD_domains: one indicator per entry of CFD_domain_files. */
  function DomainsValue(files: map<string, seq<string>>, entries: seq<string>): Res<string> {
    var codes :- DomainCodes(files, entries);
    Ok(Name(CFD_DOMAINS) + "=" + Join(",", codes))
  }

  /** There is one indicator per domain file, the one DomainCode gives it, when none fails;
      otherwise the query fails. */
  lemma DomainCodesMeaning(files: map<string, seq<string>>, entries: seq<string>)
    ensures DomainCodes(files, entries).Ok? <==> forall k :: 0 <= k < |entries| ==> DomainCode(files, entries[k]).Ok?
    ensures DomainCodes(files, entries).Ok? ==>
      && |DomainCodes(files, entries).value| == |entries|
      && forall k :: 0 <= k < |entries| ==> DomainCodes(files, entries).value[k] == DomainCode(files, entries[k]).value
  {
    EachMeaning(e => DomainCode(files, e), entries);
  }

  /** The loop that writes `f` of each entry after `head`, each followed by a comma, and then
      drops the last comma (lines 477-489, with DomainCode for `f`). */
  method JoinEach(f: string -> Res<string>, entries: seq<string>, head: string) returns (r: Res<string>)
    requires forall e :: f(e).Ok? ==> f(e).value != []
    ensures r == (var codes :- Each(f, entries); Ok(head + Join(",", codes)))
  {
    var text := head;
    var s := "";
    ghost var codes: seq<string> := [];
    for k := 0 to |entries|
      invariant Each(f, entries[..k]) == Ok(codes)
      invariant k == 0 ==> text == head && s == ""
      invariant k > 0 ==> text == head + Join(",", codes) + "," && s != [] && |codes| == k
    {
      assert entries[..k + 1][..k] == entries[..k];
      var code := f(entries[k]);
      if code.Fail? {
        EachFails(f, entries, k + 1);
        return Fail(code.why);
      }
      s := code.value;
      if k > 0 {
        JoinSnoc(",", codes, s);
      }
      text := text + s + ",";
      codes := codes + [s];
    }
    assert entries[..|entries|] == entries;
    if |entries| == 0 {
      assert head + Join(",", codes) == head;
    }
    if |s| > 0 {
      assert text[..|text| - 1] == head + Join(",", codes);
      text := text[..|text| - 1];
    }
    r := Ok(text);
  }

  /** The value of CFD_domains, written as the loop over the domain files writes it. */
  method ReadDomainCodes(files: map<string, seq<string>>, entries: seq<string>) returns (r: Res<string>)
    ensures r == DomainsValue(files, entries)
  {
    r := JoinEach(e => DomainCode(files, e), entries, Name(CFD_DOMAINS) + "=");
  }

  // ---------------------------------------------------------------- CFD contaminants (lines 492-521)

  /** The loop over a CFD domain file from line `k` on: `n` contaminant names are still to
      come and `s` holds the names read so far, each followed by a comma. */
  function ContaminantsFrom(lines: seq<string>, k: nat, n: int, s: string): Res<string>
    requires k <= |lines|
    decreases |lines| - k
  {
    if k == |lines| then Ok(s)
    else
      var t := Tokens(lines[k]);
      var t0 :- At(t, 0);
      if t0 == "*contaminants(" then
        var t1 :- At(t, 1);
        var m :- Int(t1);
        if m == 0 then Ok("none") else ContaminantsFrom(lines, k + 1, m, s)
      else if n > 0 then
        var s2 := s + t0 + ",";
        if n - 1 == 0 then Ok(s2[..|s2| - 1]) else ContaminantsFrom(lines, k + 1, n - 1, s2)
      else ContaminantsFrom(lines, k + 1, n, s)
  }

  /** The contaminants of one zone: none for a zone without a domain file. */
  function ZoneContaminants(files: map<string, seq<string>>, entry: string): Res<string> {
    if entry == "" then Ok("")
    else
      var lines :- Open(files, entry);
      ContaminantsFrom(lines, 0, 0, "")
  }

  /** `text` followed by what `r` holds, or the failure of `r`. */
  function After(text: string, r: Res<string>): (q: Res<string>)
    ensures q.Ok? <==> r.Ok?
    ensures r.Fail? ==> q == r
  {
    match r
    case Ok(rest) => Ok(text + rest)
    case Fail(w) => Fail(w)
  }

  /** Putting `line` and then `text` before a result puts `text + line` before it. */
  lemma AfterAfter(text: string, line: string, r: Res<string>)
    ensures After(text, After(line, r)) == After(text + line, r)
  {
    if r.Ok? {
      assert text + (line + r.value) == (text + line) + r.value;
    }
  }

  /** One line per zone from number `zone` on, holding `f` of its entry. */
  function ZoneLines(f: string -> Res<string>, entries: seq<string>, zone: int): Res<string>
    decreases |entries|
  {
    if entries == [] then Ok("")
    else
      var s :- f(entries[0]);
      var rest :- ZoneLines(f, entries[1..], zone + 1);
      Ok("  zone#" + IntToString(zone) + "=" + s + "\n" + rest)
  }

  /** The value of CFD_contaminants. */
  function ContaminantsValue(files: map<string, seq<string>>, entries: seq<string>): Res<string> {
    After(Name(CFD_CONTAMINANTS) + ":\n", ZoneLines(e => ZoneContaminants(files, e), entries, 1))
  }

  /** A declaration of `n` contaminants followed by the lines whose first tokens are their
      names reads back as those names, comma separated. */
  lemma {:induction false} ContaminantsRead(lines: seq<string>, d: nat, names: seq<string>, s: string, i: nat)
    requires i < |names| && d + |names| <= |lines|
    requires forall j :: i <= j < |names| ==>
      (names[j] != "*contaminants(" && Tokens(lines[d + j]) != [] && Tokens(lines[d + j])[0] == names[j])
    requires i == 0 ==> s == ""
    requires i > 0 ==> s == Join(",", names[..i]) + ","
    ensures ContaminantsFrom(lines, d + i, |names| - i, s) == Ok(Join(",", names))
    decreases |names| - i
  {
    var s2 := s + names[i] + ",";
    var k, n := d + i, |names| - i;
    assert ContaminantsFrom(lines, k, n, s) ==
      (if n == 1 then Ok(s2[..|s2| - 1]) else ContaminantsFrom(lines, k + 1, n - 1, s2)) by {
      ContaminantName(lines, k, n, s, names[i]);
    }
    assert s2 == Join(",", names[..i + 1]) + "," && s2[..|s2| - 1] == Join(",", names[..i + 1])
      && (n == 1 ==> names[..i + 1] == names) by {
      NamesSoFar(names, s, i);
    }
    if n > 1 {
      ContaminantsRead(lines, d, names, s2, i + 1);
    }
  }

  /** A line whose first token is a contaminant name while `n` names are still to come. */
  lemma ContaminantName(lines: seq<string>, k: nat, n: int, s: string, name: string)
    requires k < |lines| && n > 0 && name != "*contaminants("
    requires Tokens(lines[k]) != [] && Tokens(lines[k])[0] == name
    ensures var s2 := s + name + ",";
      ContaminantsFrom(lines, k, n, s) ==
      (if n == 1 then Ok(s2[..|s2| - 1]) else ContaminantsFrom(lines, k + 1, n - 1, s2))
  {
  }

  /** The names read so far, each followed by a comma, gain one more. */
  lemma NamesSoFar(names: seq<string>, s: string, i: nat)
    requires i < |names|
    requires i == 0 ==> s == ""
    requires i > 0 ==> s == Join(",", names[..i]) + ","
    ensures var s2 := s + names[i] + ",";
      s2 == Join(",", names[..i + 1]) + "," && s2[..|s2| - 1] == Join(",", names[..i + 1])
    ensures i + 1 == |names| ==> names[..i + 1] == names
  {
    var s2 := s + names[i] + ",";
    if i > 0 {
      JoinSnoc(",", names[..i], names[i]);
    }
    assert names[..i + 1] == names[..i] + [names[i]];
    assert s2 == Join(",", names[..i + 1]) + ",";
  }

  /** The loop over one CFD domain file (lines 504-518). */
  method ReadContaminants(lines: seq<string>) returns (r: Res<string>)
    ensures r == ContaminantsFrom(lines, 0, 0, "")
  {
    var n := 0;
    var s := "";
    for k := 0 to |lines|
      invariant ContaminantsFrom(lines, k, n, s) == ContaminantsFrom(lines, 0, 0, "")
    {
      var t := Tokens(lines[k]);
      if t == [] {
        return Fail(Raised(IndexError));
      }
      if t[0] == "*contaminants(" {
        if |t| < 2 {
          return Fail(Raised(IndexError));
        }
        var m := Int(t[1]);
        if m.Fail? {
          return Fail(m.why);
        }
        n := m.value;
        if n == 0 {
          return Ok("none");
        }
      } else if n > 0 {
        s := s + t[0] + ",";
        n := n - 1;
        if n == 0 {
          return Ok(s[..|s| - 1]);
        }
      }
    }
    r := Ok(s);
  }

  /** The contaminants of one zone (lines 500-519). */
  method ReadZoneContaminants(files: map<string, seq<string>>, entry: string) returns (r: Res<string>)
    ensures r == ZoneContaminants(files, entry)
  {
    if entry == "" {
      return Ok("");
    }
    var lines := Open(files, entry);
    if lines.Fail? {
      return Fail(lines.why);
    }
    r := ReadContaminants(lines.value);
  }

  /** The zones from the `k`-th on: the line of that zone, then the lines of the rest. */
  lemma ZoneLinesStep(f: string -> Res<string>, entries: seq<string>, k: nat)
    requires k < |entries|
    ensures f(entries[k]).Fail? ==> ZoneLines(f, entries[k..], k + 1) == Fail(f(entries[k]).why)
    ensures f(entries[k]).Ok? ==>
      ZoneLines(f, entries[k..], k + 1) ==
      After("  zone#" + IntToString(k + 1) + "=" + f(entries[k]).value + "\n", ZoneLines(f, entries[k + 1..], k + 2))
  {
    assert entries[k..][0] == entries[k] && entries[k..][1..] == entries[k + 1..];
  }

  /** The loop that writes one line per zone, numbered from 1, holding `f` of its entry
      (lines 496-520 with ZoneContaminants for `f`). */
  method WriteZoneLines(f: string -> Res<string>, entries: seq<string>, head: string) returns (r: Res<string>)
    ensures r == After(head, ZoneLines(f, entries, 1))
  {
    var text := head;
    var zone := 0;
    for k := 0 to |entries|
      invariant zone == k
      invariant After(head, ZoneLines(f, entries, 1)) == After(text, ZoneLines(f, entries[k..], k + 1))
    {
      ZoneLinesStep(f, entries, k);
      zone := zone + 1;
      var z := f(entries[k]);
      if z.Fail? {
        return Fail(z.why);
      }
      var line := "  zone#" + IntToString(zone) + "=" + z.value + "\n";
      AfterAfter(text, line, ZoneLines(f, entries[k + 1..], k + 2));
      text := text + line;
    }
    assert entries[|entries|..] == [];
    assert text + "" == text;
    r := Ok(text);
  }

  /** The value of CFD_contaminants, written as the loop over the zones writes it. */
  method ReadContaminantLines(files: map<string, seq<string>>, entries: seq<string>) returns (r: Res<string>)
    ensures r == ContaminantsValue(files, entries)
  {
    r := WriteZoneLines(e => ZoneContaminants(files, e), entries, Name(CFD_CONTAMINANTS) + ":\n");
  }
}
