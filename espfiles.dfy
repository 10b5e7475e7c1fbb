/**
 * The model files esp-query opens while it scans the .cfg file, each read by a loop of its
 * own (scripts/common/esp-query/esp-query.py:303-1099). Each loop is stated twice: as a
 * function that walks the lines from a given index, and as the method that runs the loop,
 * proved to give what the function gives.
 */
module EspFiles {
  import opened Wrappers
  import opened PyText
  import opened EspLines

  function BadFormat(path: string): string {
    "esp-query error: unrecognised format in file " + path + "\n"
  }

  /** `s.strip().split('#')[0]`: a line without its comment. */
  function Uncommented(line: string): (r: string)
    ensures '#' !in r
  {
    SplitOnAvoids(Strip(line), '#');
    SplitOn(Strip(line), '#')[0]
  }

  // ---------------------------------------------------------------- zone names (lines 305-326)

  /** The line the readline loop of the zone names stops at: the first one from `k` on that
      does not start with '#'. None when readline first gives a line with nothing to index,
      which is what it gives at the end of the file. */
  function FirstDataIndex(lines: seq<string>, k: nat): (r: Option<nat>)
    requires k <= |lines|
    ensures r.Some? ==> k <= r.value < |lines| && lines[r.value] != [] && lines[r.value][0] != '#'
    ensures r.Some? ==> forall t :: k <= t < r.value ==> lines[t] != [] && lines[t][0] == '#'
    ensures r.None? ==> forall t :: k <= t < |lines| && lines[t] != [] && lines[t][0] != '#' ==>
      exists u :: k <= u < t && lines[u] == []
    decreases |lines| - k
  {
    if k == |lines| || lines[k] == [] then None
    else if lines[k][0] == '#' then FirstDataIndex(lines, k + 1)
    else Some(k)
  }

  /** The zone name on the first line of a geometry file: the third comma separated field of
      an old `*Geometry` line, the second word of a new `GEN` line, stripped. */
  function NameInHeader(line: string, path: string): (r: Res<string>)
    ensures r.Fail? && r.why.ErrorExit? ==> r.why.message == BadFormat(path)
  {
    var s := Uncommented(line);
    var words := SplitWs(s);
    if words == [] then Fail(Raised(IndexError))
    else if words[0] == "*Geometry" then
      match At(SplitOn(s, ','), 2)
      case Fail(w) => Fail(w)
      case Ok(x) => Ok(Strip(x))
    else if words[0] == "GEN" then
      match At(words, 1)
      case Fail(w) => Fail(w)
      case Ok(x) => Ok(Strip(x))
    else Fail(ErrorExit(BadFormat(path)))
  }

  /** The zone name a geometry file gives. */
  function ZoneName(lines: seq<string>, path: string): Res<string> {
    match FirstDataIndex(lines, 0)
    case None => Fail(Raised(IndexError))
    case Some(j) => NameInHeader(lines[j], path)
  }

  /** Comment lines at the head of a geometry file do not change the zone name it gives. */
  lemma ZoneNameSkipsComments(comment: string, lines: seq<string>, path: string)
    requires comment != [] && comment[0] == '#'
    ensures ZoneName([comment] + lines, path) == ZoneName(lines, path)
  {
    var all := [comment] + lines;
    assert all[1..] == lines;
    FirstDataShift(comment, lines, 0);
  }

  lemma {:induction false} FirstDataShift(comment: string, lines: seq<string>, k: nat)
    requires comment != [] && comment[0] == '#' && k <= |lines|
    ensures var f := FirstDataIndex([comment] + lines, k + 1);
      (f.Some? <==> FirstDataIndex(lines, k).Some?)
      && (f.Some? ==> f.value == FirstDataIndex(lines, k).value + 1)
    ensures FirstDataIndex([comment] + lines, 0) == FirstDataIndex([comment] + lines, 1)
    decreases |lines| - k
  {
    var all := [comment] + lines;
    if k < |lines| {
      assert all[k + 1] == lines[k];
      FirstDataShift(comment, lines, k + 1);
    }
  }

  /** The readline loop and the name extraction of the zone names (lines 309-326). */
  method ReadZoneName(lines: seq<string>, path: string) returns (r: Res<string>)
    ensures r == ZoneName(lines, path)
  {
    var f := new Reader(lines);
    var s := "#";
    while s != [] && s[0] == '#'
      invariant f.Valid() && f.lines == lines
      invariant s != [] && s[0] == '#' ==> FirstDataIndex(lines, 0) == FirstDataIndex(lines, f.pos)
      invariant s == [] ==> FirstDataIndex(lines, 0) == None
      invariant s != [] && s[0] != '#' ==>
        1 <= f.pos && FirstDataIndex(lines, 0) == Some(f.pos - 1) && lines[f.pos - 1] == s
      decreases |lines| - f.pos, |s|
    {
      s := f.ReadLine();
    }
    if s == [] {
      return Fail(Raised(IndexError));
    }
    r := NameInHeader(s, path);
  }

  // ---------------------------------------------------------------- seeking a line

  /** Where a readline loop looking for a line that starts with `prefix` stops: the first such
      line from `k` on; None when readline gives "" first, at the end of the file. */
  function Seek(lines: seq<string>, k: nat, prefix: string): (r: Option<nat>)
    requires k <= |lines| && prefix != []
    ensures r.Some? ==> k <= r.value < |lines| && StartsWith(lines[r.value], prefix)
    ensures r.Some? ==> forall t :: k <= t < r.value ==> lines[t] != [] && !StartsWith(lines[t], prefix)
    ensures r.None? ==> forall t :: k <= t < |lines| && StartsWith(lines[t], prefix) ==>
      exists u :: k <= u < t && lines[u] == []
    decreases |lines| - k
  {
    if k == |lines| || lines[k] == [] then None
    else if StartsWith(lines[k], prefix) then Some(k)
    else Seek(lines, k + 1, prefix)
  }

  /** `while not s[0:n] == prefix: s = f.readline()`, stopping when readline gives "". */
  method SeekLine(f: Reader, prefix: string) returns (found: bool)
    requires f.Valid() && prefix != [] && prefix[0] != '#'
    modifies f
    ensures f.Valid()
    ensures found <==> Seek(f.lines, old(f.pos), prefix).Some?
    ensures found ==> f.pos == Seek(f.lines, old(f.pos), prefix).value + 1
  {
    ghost var start := f.pos;
    var s := "#";
    while !StartsWith(s, prefix)
      invariant f.Valid() && start <= f.pos
      invariant !StartsWith(s, prefix) ==> Seek(f.lines, start, prefix) == Seek(f.lines, f.pos, prefix)
      invariant StartsWith(s, prefix) ==>
        1 <= f.pos && Seek(f.lines, start, prefix) == Some(f.pos - 1)
      decreases |f.lines| - f.pos
    {
      s := f.ReadLine();
      if s == "" {
        return false;
      }
    }
    return true;
  }

  // ---------------------------------------------------------------- floor surfaces (lines 336-358)

  function NoBaseList(path: string): string {
    "esp-query error: could not find base list in file " + path + "\n"
  }

  /** The floor surfaces of a `*base_list` line: "0" when its count is "0", otherwise as many
      of the surfaces that follow the count as the count says. */
  function BaseList(line: string): Res<string> {
    BaseFields(SplitOn(Uncommented(line), ','))
  }

  /** The surfaces the fields of a base list line name. */
  function BaseFields(ls: seq<string>): Res<string> {
    if |ls| < 2 then Fail(Raised(IndexError))
    else if ls[1] == "0" then Ok("0")
    else
      match Int(ls[1])
      case Fail(w) => Fail(w)
      case Ok(n) => Ok(Join(",", PySlice(ls, 2, 2 + n)))
  }

  /** The floor surfaces a geometry file gives. A missing base list ends the script with two
      messages: the exit from the first is caught by the bare `except`, which writes the
      second. */
  function FloorSurfaces(lines: seq<string>, path: string): Res<string> {
    match Seek(lines, 0, "*base_list")
    case None => Fail(ErrorExit(NoBaseList(path) + BadFormat(path)))
    case Some(j) => BaseList(lines[j])
  }

  /** A line with no whitespace and no comment is its own uncommented text. */
  lemma PlainUncommented(line: string)
    requires NoSpace(line) && '#' !in line
    ensures Uncommented(line) == line
  {
    StripNoSpace(line);
    FindAbsent(line, '#');
  }

  /** The fields of a line written as comma separated fields with no whitespace, comma or
      '#' in them are those fields. */
  lemma FieldsOfJoin(parts: seq<string>)
    requires parts != []
    requires forall k :: 0 <= k < |parts| ==> NoSpace(parts[k]) && ',' !in parts[k] && '#' !in parts[k]
    ensures SplitOn(Uncommented(Join(",", parts)), ',') == parts
  {
    JoinNoSpace(",", parts);
    JoinAvoids(",", parts, '#');
    PlainUncommented(Join(",", parts));
    SplitOnJoin(parts, ',');
  }

  /** A base list line whose count field gives the number of the fields after it gives
      those fields. */
  lemma BaseListOfFields(line: string, key: string, surfaces: seq<string>)
    requires surfaces != []
    requires SplitOn(Uncommented(line), ',') == [key, IntToString(|surfaces|)] + surfaces
    ensures BaseList(line) == Ok(Join(",", surfaces))
  {
    CountField(|surfaces|);
    BaseFieldsOf(key, IntToString(|surfaces|), surfaces);
  }

  /** The fields of a base list line whose count field reads as the number of fields after it. */
  lemma BaseFieldsOf(key: string, count: string, surfaces: seq<string>)
    requires count != "0" && Int(count) == Ok(|surfaces|)
    ensures BaseFields([key, count] + surfaces) == Ok(Join(",", surfaces))
  {
    var ls := [key, count] + surfaces;
    var n := |surfaces|;
    assert ls[2..2 + n] == surfaces;
    var sl := PySlice(ls, 2, 2 + n);
    assert sl == surfaces;
    assert |ls| >= 2 && ls[1] == count;
    assert BaseFields(ls) == Ok(Join(",", sl));
  }

  /** The count field written for a positive number reads back as that number. */
  lemma CountField(n: nat)
    requires n > 0
    ensures IntToString(n) != "0" && Int(IntToString(n)) == Ok(n)
  {
    ParseIntToString(n);
    if IntToString(n) == "0" {
      ParseIntDigits("0");
    }
  }

  /** Fields free of whitespace, commas and '#' stay so when put together. */
  lemma PlainFields(head: seq<string>, tail: seq<string>)
    requires forall k :: 0 <= k < |head| ==> NoSpace(head[k]) && ',' !in head[k] && '#' !in head[k]
    requires forall k :: 0 <= k < |tail| ==> NoSpace(tail[k]) && ',' !in tail[k] && '#' !in tail[k]
    ensures forall k :: 0 <= k < |head + tail| ==>
      NoSpace((head + tail)[k]) && ',' !in (head + tail)[k] && '#' !in (head + tail)[k]
  {
  }

  /** The fields of a written out base list line. */
  lemma BaseListFields(surfaces: seq<string>)
    requires forall k :: 0 <= k < |surfaces| ==> NoSpace(surfaces[k]) && ',' !in surfaces[k] && '#' !in surfaces[k]
    ensures var parts := ["*base_list", IntToString(|surfaces|)] + surfaces;
      SplitOn(Uncommented(Join(",", parts)), ',') == parts
  {
    var n := |surfaces|;
    var count := IntToString(n);
    IntToStringAvoids(n, ',');
    IntToStringAvoids(n, '#');
    var head := ["*base_list", count];
    assert NoSpace("*base_list") && ',' !in "*base_list" && '#' !in "*base_list";
    PlainFields(head, surfaces);
    FieldsOfJoin(head + surfaces);
  }

  /** A base list written out for some floor surfaces reads back as those surfaces. */
  lemma BaseListRoundTrip(surfaces: seq<string>)
    requires surfaces != []
    requires forall k :: 0 <= k < |surfaces| ==> NoSpace(surfaces[k]) && ',' !in surfaces[k] && '#' !in surfaces[k]
    ensures BaseList(Join(",", ["*base_list", IntToString(|surfaces|)] + surfaces)) == Ok(Join(",", surfaces))
  {
    BaseListFields(surfaces);
    BaseListOfFields(Join(",", ["*base_list", IntToString(|surfaces|)] + surfaces), "*base_list", surfaces);
  }

  /** The seek for the base list and the floor surfaces it gives (lines 336-356). */
  method ReadFloorSurfaces(lines: seq<string>, path: string) returns (r: Res<string>)
    ensures r == FloorSurfaces(lines, path)
  {
    var f := new Reader(lines);
    var found := SeekLine(f, "*base_list");
    if !found {
      return Fail(ErrorExit(NoBaseList(path) + BadFormat(path)));
    }
    r := BaseList(lines[f.pos - 1]);
  }

  // ---------------------------------------------------------------- window surfaces (lines 560-598)

  function NoSurfaces(path: string): string {
    "esp-query: could not find surfaces in file " + path + "\n"
  }

  /** The comma separated fields of a surface line. */
  function SurfaceFields(line: string): seq<string> {
    SplitOn(Uncommented(line), ',')
  }

  /** Whether the surface of a `*surf` line is a window: not opaque and facing the outside.
      A line with too few fields raises IndexError. */
  function SurfaceKind(line: string): Res<bool> {
    var ls := SurfaceFields(line);
    if |ls| <= 7 then Fail(Raised(IndexError))
    else if ls[7] == "OPAQUE" then Ok(false)
    else if |ls| <= 8 then Fail(Raised(IndexError))
    else Ok(ls[8] == "EXTERIOR")
  }

  /** The end of the run of lines starting with `prefix` that begins at `k`. */
  function RunEnd(lines: seq<string>, k: nat, prefix: string): (e: nat)
    requires k <= |lines|
    ensures k <= e <= |lines|
    ensures forall t :: k <= t < e ==> StartsWith(lines[t], prefix)
    ensures e < |lines| ==> !StartsWith(lines[e], prefix)
    decreases |lines| - k
  {
    if k == |lines| || !StartsWith(lines[k], prefix) then k else RunEnd(lines, k + 1, prefix)
  }

  /** The numbers of the lines in the run of `*surf` lines from `k` on that `kind` picks, the
      line at `k` having number `n`, after the numbers in `acc` found before; the first line
      `kind` fails on ends the scan with its failure. */
  function NumberedFrom(kind: string -> Res<bool>, lines: seq<string>, k: nat, n: int, acc: seq<int>): Res<seq<int>>
    requires k <= |lines|
    decreases |lines| - k
  {
    if k == |lines| || !StartsWith(lines[k], "*surf") then Ok(acc)
    else
      match kind(lines[k])
      case Fail(w) => Fail(w)
      case Ok(picked) => NumberedFrom(kind, lines, k + 1, n + 1, if picked then acc + [n] else acc)
  }

  /** The window surfaces a geometry file gives, numbered from 1 at the first `*surf` line. */
  function WindowSurfaces(lines: seq<string>, path: string): Res<seq<int>> {
    match Seek(lines, 0, "*surf")
    case None => Fail(ErrorExit(NoSurfaces(path) + BadFormat(path)))
    case Some(j) => NumberedFrom(SurfaceKind, lines, j, 1, [])
  }

  /** Number `n + (t - k)` is listed exactly when `kind` picks line `t`, the numbers are listed
      in ascending order and they are those of the run. */
  lemma {:induction false} NumberedMeaning(kind: string -> Res<bool>, lines: seq<string>, k: nat, n: int, acc: seq<int>)
    requires k <= |lines| && NumberedFrom(kind, lines, k, n, acc).Ok?
    requires forall i :: 0 <= i < |acc| ==> acc[i] < n
    ensures var ws := NumberedFrom(kind, lines, k, n, acc).value;
      var e := RunEnd(lines, k, "*surf");
      && |acc| <= |ws| && (forall i :: 0 <= i < |acc| ==> ws[i] == acc[i])
      && (forall t :: k <= t < e ==> (n + (t - k) in ws <==> kind(lines[t]) == Ok(true)))
      && (forall i :: |acc| <= i < |ws| ==> n <= ws[i] < n + (e - k))
    decreases |lines| - k
  {
    if k < |lines| && StartsWith(lines[k], "*surf") {
      var picked := kind(lines[k]) == Ok(true);
      var next := if picked then acc + [n] else acc;
      NumberedMeaning(kind, lines, k + 1, n + 1, next);
      var ws := NumberedFrom(kind, lines, k + 1, n + 1, next).value;
      var e := RunEnd(lines, k, "*surf");
      assert e == RunEnd(lines, k + 1, "*surf");
      if picked {
        assert next[|acc|] == n;
        assert ws[|acc|] == n;
      } else {
        forall i | 0 <= i < |ws| ensures ws[i] != n {
          if i < |acc| {
            assert ws[i] == acc[i];
          }
        }
      }
      assert n in ws <==> picked;
      forall t | k + 1 <= t < e ensures (n + (t - k) in ws <==> kind(lines[t]) == Ok(true)) {
        assert n + (t - k) == n + 1 + (t - (k + 1));
      }
    }
  }

  /** The seek for the surfaces and the loop over them (lines 561-596). */
  method ReadWindowSurfaces(lines: seq<string>, path: string) returns (r: Res<seq<int>>)
    ensures r == WindowSurfaces(lines, path)
  {
    var f := new Reader(lines);
    var found := SeekLine(f, "*surf");
    if !found {
      return Fail(ErrorExit(NoSurfaces(path) + BadFormat(path)));
    }
    ghost var k: nat := f.pos - 1;
    var surf := 0;
    var ws: seq<int> := [];
    var s2 := lines[f.pos - 1];
    while true
      invariant f.Valid() && f.lines == lines && k <= |lines|
      invariant f.pos == Advance(lines, k, 1) && s2 == LineAt(lines, k)
      invariant NumberedFrom(SurfaceKind, lines, k, surf + 1, ws) == WindowSurfaces(lines, path)
      decreases |lines| - k
    {
      surf := surf + 1;
      if !StartsWith(s2, "*surf") {
        break;
      }
      var kind := SurfaceKind(s2);
      s2 := f.ReadLine();
      k := k + 1;
      if kind.Fail? {
        return Fail(kind.why);
      }
      if kind.value {
        ws := ws + [surf];
      }
    }
    r := Ok(ws);
  }
}
