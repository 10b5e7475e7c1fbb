/**
 * A run of esp-query (scripts/common/esp-query/esp-query.py:226-1159): the setup of the
 * output lists for the request, the scan of the configuration file, the blanks filled in for
 * what a model does not define, and the report or the list of what is missing.
 */
module EspRun {
  import opened Wrappers
  import opened PyText
  import opened EspLines
  import opened EspTables
  import EspQuery
  import opened EspScan

  /** How a run ends: an exception stops the script, or it answers. */
  datatype Outcome =
    | Crashed(why: Failure)
    | Answered(response: EspQuery.Response)

  /** The directory and the name of the configuration file (lines 241-243): a path without a
      directory is read from ".". */
  function CfgLocation(path: string): (r: (string, string))
    ensures r.0 != [] && '/' !in r.1
    ensures r.0 == (if PathSplit(path).0 == "" then "." else PathSplit(path).0) && r.1 == PathSplit(path).1
  {
    var (dir, name) := PathSplit(path);
    (if dir == "" then "." else dir, name)
  }

  /** The state before the first line: the flags of the request, no values yet. */
  function StartState(request: seq<string>): (st: State)
    ensures st.f == EspQuery.WantedOf(request) && st.v == seq(COUNT, _ => "") && st.g == StartGlobals()
  {
    Scan(EspQuery.WantedOf(request), seq(COUNT, _ => ""), StartGlobals())
  }

  /** The answer to the scanned lists (lines 1114-1159). */
  function Conclude(request: seq<string>, st: State): EspQuery.Response {
    var (f, v) := EspQuery.Blanks(st.f, st.v);
    if true in f then EspQuery.Missing(EspQuery.MissingNames(f))
    else EspQuery.Report(Join("\n\n", EspQuery.Slots(|request|, EspQuery.DisplayOf(request), EspQuery.OrderOf(request), v, COUNT)))
  }

  /** What a run of esp-query gives for the request, the configuration file and the files it
      refers to. */
  function Answer(request: seq<string>, cfgPath: string, files: map<string, seq<string>>, climate: Res<string>): Outcome {
    var (dir, name) := CfgLocation(cfgPath);
    var cfg := Open(files, dir + "/" + name);
    if cfg.Fail? then Crashed(cfg.why)
    else
      var scanned := ScanFrom(Env(dir, files, climate), cfg.value, 0, StartState(request));
      if scanned.Fail? then Crashed(scanned.why)
      else Answered(Conclude(request, scanned.value))
  }

  /** The scan of lines `k` on is the scan of line `k` and then of the lines after it. */
  lemma ScanFromUnfold(env: Env, lines: seq<string>, k: nat, st: State)
    requires k < |lines|
    ensures var s1 := LineStep(env, lines[k], st);
      ScanFrom(env, lines, k, st) == if s1.Ok? then ScanFrom(env, lines, k + 1, s1.value) else Fail(s1.why)
  {
    assert LineSteps(env)(lines[k], st) == LineStep(env, lines[k], st);
  }

  /** The loop over the configuration lines (lines 258-1101), on the query's lists. */
  method ScanLines(q: EspQuery.Query, env: Env, lines: seq<string>) returns (r: Res<Globals>)
    requires q.Valid()
    modifies q.flags, q.vals
    ensures q.Valid()
    ensures var scanned := ScanFrom(env, lines, 0, Scan(old(q.flags[..]), old(q.vals[..]), StartGlobals()));
      && (r.Ok? <==> scanned.Ok?)
      && (r.Fail? ==> r.why == scanned.why)
      && (r.Ok? ==> q.flags[..] == scanned.value.f && q.vals[..] == scanned.value.v && r.value == scanned.value.g)
  {
    var g := StartGlobals();
    ghost var start: State := Scan(q.flags[..], q.vals[..], g);
    for k := 0 to |lines|
      invariant q.Valid() && |g.objects| == 5
      invariant ScanFrom(env, lines, 0, start) == ScanFrom(env, lines, k, Scan(q.flags[..], q.vals[..], g))
    {
      var st: State := Scan(q.flags[..], q.vals[..], g);
      ScanFromUnfold(env, lines, k, st);
      var s1 := LineStep(env, lines[k], st);
      if s1.Fail? {
        return Fail(s1.why);
      }
      q.Store(s1.value.f, s1.value.v);
      g := s1.value.g;
    }
    r := Ok(g);
  }

  /** A run of esp-query once the request is parsed. */
  method Run(request: seq<string>, cfgPath: string, files: map<string, seq<string>>, climate: Res<string>) returns (r: Outcome)
    ensures r == Answer(request, cfgPath, files, climate)
  {
    var q := new EspQuery.Query(request);
    var (dir, name) := CfgLocation(cfgPath);
    var cfg := Open(files, dir + "/" + name);
    if cfg.Fail? {
      return Crashed(cfg.why);
    }
    var scanned := ScanLines(q, Env(dir, files, climate), cfg.value);
    if scanned.Fail? {
      return Crashed(scanned.why);
    }
    q.FillBlanks();
    var response := q.Finish();
    r := Answered(response);
  }
}
