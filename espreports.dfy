/**
 * The files esp-query reads for the Radiance outputs, the FMU names and the figures of the
 * QA report (scripts/common/esp-query/esp-query.py:522-555, 807-885).
 */
module EspReports {
  import opened Wrappers
  import opened PyText
  import opened EspLines

  // ---------------------------------------------------------------- Radiance (lines 522-555)

  /** The Radiance control file named on a `*rif` line of the configuration file. */
  function ControlPath(cfgDir: string, rcf: string): string {
    cfgDir + "/" + rcf
  }

  /** The value of line `n` of the control file that starts with `tag`: the control file must
      exist, the first token of that line must be `tag` or the script stops on the assertion,
      and its second token is the value. */
  function TaggedValue(files: map<string, seq<string>>, path: string, n: nat, tag: string): (r: Res<string>)
    requires n >= 1
    ensures r.Ok? <==>
      && path in files
      && |LineDown(files[path], 0, n)| >= 2
      && LineDown(files[path], 0, n)[0] == tag
    ensures r.Ok? ==> r.value == LineDown(files[path], 0, n)[1]
    ensures path in files && |LineDown(files[path], 0, n)| >= 1 && LineDown(files[path], 0, n)[0] != tag ==>
      r == Fail(Raised(AssertionError))
  {
    var lines :- Open(files, path);
    var ls := LineDown(lines, 0, n);
    var a :- At(ls, 0);
    if a != tag then Fail(Raised(AssertionError))
    else At(ls, 1)
  }

  /** The Radiance scene: the second token of line 7 of the control file, tagged `*srt`. */
  function RadianceScene(files: map<string, seq<string>>, cfgDir: string, rcf: string): Res<string> {
    TaggedValue(files, ControlPath(cfgDir, rcf), 7, "*srt")
  }

  /** The lines of the Radiance input file: its name is the second token of line 5 of the
      control file, tagged `*rnm`, taken relative to the control file's directory. */
  function ViewLines(files: map<string, seq<string>>, cfgDir: string, rcf: string): Res<seq<string>> {
    var rif :- TaggedValue(files, ControlPath(cfgDir, rcf), 5, "*rnm");
    Open(files, cfgDir + "/" + PathSplit(rcf).0 + "/" + rif)
  }

  // ---------------------------------------------------------------- keyed lines (lines 534-542, 874-884)

  /** The second tokens of the lines from line `k` on whose first token is `key`, after `acc`;
      a line without tokens, or a keyed line without a second token, raises IndexError. */
  function KeyedFrom(lines: seq<string>, k: nat, key: string, acc: seq<string>): (r: Res<seq<string>>)
    requires k <= |lines|
    ensures r.Ok? ==> |acc| <= |r.value| <= |acc| + (|lines| - k) && r.value[..|acc|] == acc
    decreases |lines| - k
  {
    if k == |lines| then Ok(acc)
    else
      var t := Tokens(lines[k]);
      var t0 :- At(t, 0);
      if t0 == key then
        var t1 :- At(t, 1);
        var r := KeyedFrom(lines, k + 1, key, acc + [t1]);
        assert r.Ok? ==> r.value[..|acc|] == (acc + [t1])[..|acc|];
        r
      else KeyedFrom(lines, k + 1, key, acc)
  }

  /** Every value collected is the second token of a line keyed `key`, at or after line `k`. */
  lemma {:induction false} KeyedSource(lines: seq<string>, k: nat, key: string, acc: seq<string>, i: nat)
    returns (j: nat)
    requires k <= |lines| && KeyedFrom(lines, k, key, acc).Ok?
    requires |acc| <= i < |KeyedFrom(lines, k, key, acc).value|
    ensures k <= j < |lines| && |Tokens(lines[j])| >= 2 && Tokens(lines[j])[0] == key
    ensures KeyedFrom(lines, k, key, acc).value[i] == Tokens(lines[j])[1]
    decreases |lines| - k
  {
    var t := Tokens(lines[k]);
    if t[0] == key {
      var acc2 := acc + [t[1]];
      if i == |acc| {
        assert KeyedFrom(lines, k + 1, key, acc2).value[..|acc2|] == acc2;
        j := k;
      } else {
        j := KeyedSource(lines, k + 1, key, acc2, i);
      }
    } else {
      j := KeyedSource(lines, k + 1, key, acc, i);
    }
  }

  /** The keyed values separated by commas after `head`; with none, the earlier value stays. */
  function KeyedValue(lines: seq<string>, key: string, head: string, prev: string): Res<string> {
    var vs :- KeyedFrom(lines, 0, key, []);
    Ok(if vs == [] then prev else head + Join(",", vs))
  }

  /** The loop over the Radiance input file (lines 534-542): the first viewpoint follows
      `head`, each later one a comma. With FMU names (corrected) it is the loop of lines
      874-884. */
  method ReadKeyed(lines: seq<string>, key: string, head: string, prev: string) returns (r: Res<string>)
    ensures r == KeyedValue(lines, key, head, prev)
  {
    var text := prev;
    var first := true;
    ghost var vs: seq<string> := [];
    for k := 0 to |lines|
      invariant KeyedFrom(lines, k, key, vs) == KeyedFrom(lines, 0, key, [])
      invariant first <==> vs == []
      invariant first ==> text == prev
      invariant !first ==> text == head + Join(",", vs)
    {
      var t := Tokens(lines[k]);
      if |t| == 0 {
        return Fail(Raised(IndexError));
      }
      if t[0] == key {
        if |t| < 2 {
          return Fail(Raised(IndexError));
        }
        if first {
          text := head + t[1];
          first := false;
        } else {
          JoinSnoc(",", vs, t[1]);
          text := text + "," + t[1];
        }
        vs := vs + [t[1]];
      }
    }
    r := Ok(text);
  }

  // ---------------------------------------------------------------- FMU names (lines 871-885)

  /** The key of the lines of an FMI configuration that name an FMU. */
  const FILE_KEY := "*FileName"

  /** FMU_names as the script writes it: each `*FileName` line after the first replaces the
      value with the identifier, a comma and that one name. */
  function FmuValueAsWritten(lines: seq<string>, name: string, prev: string): Res<string> {
    var vs :- KeyedFrom(lines, 0, FILE_KEY, []);
    Ok(if vs == [] then prev
      else if |vs| == 1 then name + "=" + vs[0]
      else name + "," + vs[|vs| - 1])
  }

  /** FMU_names as the other list outputs are written: all names, comma separated. */
  function FmuValue(lines: seq<string>, name: string, prev: string): Res<string> {
    KeyedValue(lines, FILE_KEY, name + "=", prev)
  }

  /** An FMI configuration naming two FMUs. */
  function TwoFmus(a: string, b: string): seq<string> {
    [FILE_KEY + " " + a, FILE_KEY + " " + b]
  }

  /** Two keyed lines give their two values. */
  lemma KeyedTwo(lines: seq<string>, key: string, a: string, b: string)
    requires |lines| == 2 && Tokens(lines[0]) == [key, a] && Tokens(lines[1]) == [key, b]
    ensures KeyedFrom(lines, 0, key, []) == Ok([a, b])
  {
    assert [] + [a] == [a] && [a] + [b] == [a, b];
    assert KeyedFrom(lines, 2, key, [a, b]) == Ok([a, b]);
    assert KeyedFrom(lines, 1, key, [a]) == KeyedFrom(lines, 2, key, [a, b]);
  }

  /** The configuration of TwoFmus names the two FMUs. */
  lemma TwoFmusRead(a: string, b: string)
    requires a != [] && NoSpace(a) && b != [] && NoSpace(b)
    ensures KeyedFrom(TwoFmus(a, b), 0, FILE_KEY, []) == Ok([a, b])
  {
    FileKeyIsWord();
    TwoWordTokens(FILE_KEY, a);
    TwoWordTokens(FILE_KEY, b);
    KeyedTwo(TwoFmus(a, b), FILE_KEY, a, b);
  }

  /** With two FMUs (TwoFmus, say) the value as written has lost the first one and its `=`,
      where the corrected value lists both. */
  lemma FmuNamesAsWrittenLosesNames(lines: seq<string>, name: string, a: string, b: string)
    requires KeyedFrom(lines, 0, FILE_KEY, []) == Ok([a, b])
    ensures FmuValueAsWritten(lines, name, "") == Ok(name + "," + b)
    ensures FmuValue(lines, name, "") == Ok(name + "=" + a + "," + b)
  {
    assert Join(",", [a, b]) == a + "," + b by {
      assert [a, b][1..] == [b];
    }
    assert (name + "=") + (a + "," + b) == name + "=" + a + "," + b;
  }

  lemma FileKeyIsWord()
    ensures FILE_KEY != [] && NoSpace(FILE_KEY)
  {
    var k := FILE_KEY;
    assert forall i :: 0 <= i < |k| ==> k[i] in "*FileNam";
  }

  /** The corrected value gives back every FMU name, in order, to a reader that splits it at
      `=` and at commas, as the callers of esp-query do with the other list outputs. */
  lemma FmuValueRoundTrip(lines: seq<string>, prev: string)
    requires FmuValue(lines, "FMU_names", prev).Ok? && KeyedFrom(lines, 0, FILE_KEY, []).value != []
    requires forall i :: 0 <= i < |KeyedFrom(lines, 0, FILE_KEY, []).value| ==>
      ',' !in KeyedFrom(lines, 0, FILE_KEY, []).value[i]
    ensures AfterFirst(FmuValue(lines, "FMU_names", prev).value, '=') == Some(Join(",", KeyedFrom(lines, 0, FILE_KEY, []).value))
    ensures SplitOn(Join(",", KeyedFrom(lines, 0, FILE_KEY, []).value), ',') == KeyedFrom(lines, 0, FILE_KEY, []).value
  {
    var vs := KeyedFrom(lines, 0, FILE_KEY, []).value;
    SplitOnJoin(vs, ',');
    assert "FMU_names" + "=" + Join(",", vs) == "FMU_names" + ['='] + Join(",", vs);
    AfterFirstOf("FMU_names", '=', Join(",", vs));
  }

  // ---------------------------------------------------------------- QA report (lines 807-862)

  /** The header of the zone table of a QA report. */
  const QA_HEADER := "Name         m^3   | No. Opaque  Transp  ~Floor"

  /** How the QA loops read a line: stripped, and then split at whitespace. */
  function StripSplit(line: string): (string, seq<string>) {
    (Strip(line), SplitWs(Strip(line)))
  }

  /** The loop over a QA report from line `k` on, each line read by `read` (StripSplit):
      `inTable` after the `header` of the zone table. At the row of the `all` zone it ends
      with the zone rows' third tokens, when `collect`, and the `col`-th token of that row;
      None when the report has no such row. */
  function QaFrom(read: string -> (string, seq<string>), lines: seq<string>, header: string, k: nat, inTable: bool,
                  col: nat, collect: bool, acc: seq<string>): Res<Option<(seq<string>, string)>>
    requires k <= |lines|
    decreases |lines| - k
  {
    if k == |lines| then Ok(None)
    else
      var (s, t) := read(lines[k]);
      if s == header then QaFrom(read, lines, header, k + 1, true, col, collect, acc)
      else if inTable then
        var t0 :- At(t, 0);
        if t0 == "all" then
          var v :- At(t, col);
          Ok(Some((acc, v)))
        else if collect then
          var z :- At(t, 2);
          QaFrom(read, lines, header, k + 1, inTable, col, collect, acc + [z])
        else QaFrom(read, lines, header, k + 1, inTable, col, collect, acc)
      else QaFrom(read, lines, header, k + 1, inTable, col, collect, acc)
  }

  /** The figures of a QA report: lines 807-862 with the header of its zone table. */
  function QaFigures(lines: seq<string>, col: nat, collect: bool): Res<Option<(seq<string>, string)>> {
    QaFrom(StripSplit, lines, QA_HEADER, 0, false, col, collect, [])
  }

  /** A row of the zone table for a zone whose third token is `z`. */
  predicate ZoneRow(read: string -> (string, seq<string>), header: string, line: string, z: string) {
    && read(line).0 != header
    && |read(line).1| >= 3
    && read(line).1[0] != "all"
    && read(line).1[2] == z
  }

  /** Lines `k` on are the rows of the zones whose third tokens are `zones`. */
  predicate ZoneRows(read: string -> (string, seq<string>), header: string, lines: seq<string>, k: nat, zones: seq<string>)
    decreases |zones|
  {
    zones == [] || (k < |lines| && ZoneRow(read, header, lines[k], zones[0]) && ZoneRows(read, header, lines, k + 1, zones[1..]))
  }

  /** In the zone table, the rows of the zones followed by the row of `all` give the zones'
      third tokens, when `collect`, and the `col`-th token of the `all` row. */
  lemma {:induction false} QaTableRead(read: string -> (string, seq<string>), header: string, lines: seq<string>,
                                       k: nat, zones: seq<string>, col: nat, collect: bool, acc: seq<string>)
    requires k + |zones| < |lines| && ZoneRows(read, header, lines, k, zones)
    requires read(lines[k + |zones|]).0 != header
    requires |read(lines[k + |zones|]).1| > col && read(lines[k + |zones|]).1[0] == "all"
    ensures QaFrom(read, lines, header, k, true, col, collect, acc) ==
      Ok(Some((if collect then acc + zones else acc, read(lines[k + |zones|]).1[col])))
    decreases |zones|
  {
    if zones == [] {
      assert k + |zones| == k && acc + zones == acc;
    } else {
      var acc2 := if collect then acc + [zones[0]] else acc;
      assert k + 1 + |zones[1..]| == k + |zones|;
      QaTableRead(read, header, lines, k + 1, zones[1..], col, collect, acc2);
      if collect {
        assert acc2 + zones[1..] == acc + zones by {
          assert zones == [zones[0]] + zones[1..];
        }
      }
    }
  }

  /** The loop over the QA report for the total floor area (col 5), the total volume (col 1) or
      the zone volumes (collect). */
  method ReadQa(lines: seq<string>, col: nat, collect: bool) returns (r: Res<Option<(seq<string>, string)>>)
    ensures r == QaFigures(lines, col, collect)
  {
    var b := false;
    var ls: seq<string> := [];
    for k := 0 to |lines|
      invariant QaFrom(StripSplit, lines, QA_HEADER, k, b, col, collect, ls) == QaFigures(lines, col, collect)
    {
      var s := Strip(lines[k]);
      if s == QA_HEADER {
        b := true;
      } else if b {
        var t := SplitWs(s);
        if |t| == 0 {
          return Fail(Raised(IndexError));
        }
        if t[0] == "all" {
          if col >= |t| {
            return Fail(Raised(IndexError));
          }
          return Ok(Some((ls, t[col])));
        } else if collect {
          if |t| < 3 {
            return Fail(Raised(IndexError));
          }
          ls := ls + [t[2]];
        }
      }
    }
    r := Ok(None);
  }
}
