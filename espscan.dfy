/**
 * The scan of the configuration file (scripts/common/esp-query/esp-query.py:240-1101): one
 * pass over its lines, each line offered to every extraction still looked for, in the order
 * the script lists them. An extraction records its output's value and stops looking for it,
 * or updates a per-zone list and stops once the last zone is done.
 */
module EspScan {
  import opened Wrappers
  import opened PyText
  import opened EspLines
  import opened EspTables
  import EspFiles
  import EspSensors
  import EspReports
  import EspSetpoints
  import EspNetworks
  import EspObjects

  /** What the scan is given instead of the file system: the directory of the configuration
      file, the files by path, and the climate directory `~/.esprc` names (or how looking it
      up fails). */
  datatype Env = Env(cfgDir: string, files: map<string, seq<string>>, climate: Res<string>)

  /** The script's global variables besides the two output arrays. */
  datatype Globals = Globals(
    countdown: int,              // i_countdown: lines left to the number of zones
    countdown2: int,             // i_countdown2: lines left to the model description
    zones: int,                  // i_numZonesDone: the `*zon` lines seen
    vwf: bool,                   // b_vwf: in a zone whose view factor file is still to come
    cfd: bool,                   // b_cfd: in a zone whose CFD domain file is still to come
    afn: int,                    // i_afn: where the scan is in the air flow network lines
    afnType: int,                // i_afntyp
    plant: int,                  // i_plant: the next line names the plant network
    ctl: Option<string>,         // s_ctl; None until it is first assigned
    tdfa: Option<string>,        // s_tdfa
    qa: Option<string>,          // s_QA
    fmi: Option<string>,         // s_FMI
    plantFile: Option<string>,   // s_plant
    sensors: Option<int>,        // i_nsen
    surfaces: Option<int>,       // i_nsur
    components: Option<int>,     // m_pcomp
    objects: seq<Option<bool>>)  // b_toilet, b_urinal, b_shower, b_printer, b_photocopy

  /** The output flags (lb_outputs), the output values (ls_outputVals) and the globals. */
  datatype Scan = Scan(f: seq<bool>, v: seq<string>, g: Globals)

  predicate Shaped(s: Scan) {
    |s.f| == COUNT && |s.v| == COUNT && |s.g.objects| == 5
  }

  /** The globals before the first line (lines 250-257), the object flags set as they would
      have to be for the first line to pass (`False`). */
  function StartGlobals(): (g: Globals)
    ensures |g.objects| == 5 && forall k :: 0 <= k < 5 ==> g.objects[k] == Some(false)
  {
    Globals(-1, -1, 0, false, false, 0, 0, 0, None, None, None, None, None, None, None, None,
            [Some(false), Some(false), Some(false), Some(false), Some(false)])
  }

  type State = s: Scan | Shaped(s) witness Scan(seq(COUNT, _ => false), seq(COUNT, _ => ""), StartGlobals())

  // ---------------------------------------------------------------- frames

  /** Only outputs `i` and `j` differ between `a` and `b`. */
  predicate Only(a: State, b: State, i: nat, j: nat) {
    forall k :: 0 <= k < COUNT && k != i && k != j ==> b.f[k] == a.f[k] && b.v[k] == a.v[k]
  }

  /** From `a` to `b` flags only fall, and only the values of outputs looked for change: a
      value found is never overwritten and an output not asked for is never written. */
  predicate Within(a: State, b: State) {
    forall k :: 0 <= k < COUNT ==> (b.f[k] ==> a.f[k]) && (a.f[k] || b.v[k] == a.v[k])
  }

  /** The outputs the first passes over a line look for: the model name, the number of zones
      and the model description. */
  predicate HeadOutput(k: nat) {
    k == MODEL_NAME || k == NUMBER_ZONES || k == MODEL_DESCRIPTION
  }

  /** What a later pass over a line leaves as it is: the outputs of the first passes, the
      count of zones and the countdown to the number of zones; the countdown to the model
      description changes only on a `*ivf` line. */
  predicate RestFrame(a: State, b: State, t0: string) {
    && Within(a, b)
    && (forall k :: 0 <= k < COUNT && HeadOutput(k) ==> b.f[k] == a.f[k] && b.v[k] == a.v[k])
    && b.g.countdown == a.g.countdown
    && b.g.zones == a.g.zones
    && (t0 != "*ivf" ==> b.g.countdown2 == a.g.countdown2)
  }

  // ---------------------------------------------------------------- writing outputs

  /** `ls_outputVals[i] = s; lb_outputs[i] = False`. */
  function Put(st: State, i: nat, s: string): (r: State)
    requires i < COUNT
    ensures !r.f[i] && r.v[i] == s && r.g == st.g && Only(st, r, i, i)
    ensures st.f[i] ==> Within(st, r)
  {
    st.(f := st.f[i := false], v := st.v[i := s])
  }

  /** `ls_outputVals[i] = s`, still looking for output `i`. */
  function Set(st: State, i: nat, s: string): (r: State)
    requires i < COUNT
    ensures r.f == st.f && r.v[i] == s && r.g == st.g && Only(st, r, i, i)
    ensures st.f[i] ==> Within(st, r)
  {
    st.(v := st.v[i := s])
  }

  /** `int(ls_outputVals[1].split('=')[1])`: the number of zones found. */
  function ZoneTotal(st: State): Res<int> {
    var p :- At(SplitOn(st.v[NUMBER_ZONES], '='), 1);
    Int(p)
  }

  /** A per-zone list: `name=s` for the first zone and `,s` appended after; output `i` is
      no longer looked for once the zone count reaches `n`, the number of zones. */
  function ZoneList(st: State, i: nat, s: string, n: int): (r: State)
    requires i < COUNT
    ensures r.g == st.g && Only(st, r, i, i)
    ensures r.v[i] == (if st.g.zones == 1 then Name(i) + "=" + s else st.v[i] + "," + s)
    ensures r.f[i] <==> st.f[i] && st.g.zones != n
    ensures st.f[i] ==> Within(st, r)
  {
    var v := if st.g.zones == 1 then Name(i) + "=" + s else st.v[i] + "," + s;
    st.(f := st.f[i := st.f[i] && st.g.zones != n], v := st.v[i := v])
  }

  /** The line of the current zone in a per-zone block, headed `name:` at the first zone;
      output `i` is no longer looked for once the zone count reaches `n`. */
  function ZoneBlock(st: State, i: nat, s: string, n: int): (r: State)
    requires i < COUNT
    ensures r.g == st.g && Only(st, r, i, i)
    ensures r.v[i] == (if st.g.zones == 1 then Name(i) + ":\n" else st.v[i])
                      + "  zone#" + IntToString(st.g.zones) + "=" + s + "\n"
    ensures r.f[i] <==> st.f[i] && st.g.zones != n
    ensures st.f[i] ==> Within(st, r)
  {
    var head := if st.g.zones == 1 then Name(i) + ":\n" else st.v[i];
    st.(f := st.f[i := st.f[i] && st.g.zones != n],
        v := st.v[i := head + "  zone#" + IntToString(st.g.zones) + "=" + s + "\n"])
  }

  /** A global that is read before it is assigned raises NameError. */
  function Known<T>(o: Option<T>): (r: Res<T>)
    ensures r.Ok? <==> o.Some?
    ensures r.Ok? ==> r.value == o.value
    ensures r.Fail? ==> r.why == Raised(NameError)
  {
    if o.Some? then Ok(o.value) else Fail(Raised(NameError))
  }

  /** `ls_outputVals[i].split('=')[1].split(',')`: the entries of a listed output. */
  function Entries(v: string): Res<seq<string>> {
    var p :- At(SplitOn(v, '='), 1);
    Ok(SplitOn(p, ','))
  }

  /** The path `cfgDir/name` of a file a configuration line names. */
  function Beside(env: Env, name: string): string {
    env.cfgDir + "/" + name
  }

  // ---------------------------------------------------------------- the first passes (lines 263-299)

  /** `if c >= 0: c -= 1` for both countdowns (lines 263-264). */
  function Tick(st: State): (r: State)
    ensures r.f == st.f && r.v == st.v
  {
    var g := st.g;
    st.(g := g.(countdown := if g.countdown >= 0 then g.countdown - 1 else g.countdown,
                countdown2 := if g.countdown2 >= 0 then g.countdown2 - 1 else g.countdown2))
  }

  /** model_name (lines 266-272): the second token of the `*root` line. */
  function ModelName(t0: string, t: seq<string>, st: State): (r: Res<State>)
    ensures r.Ok? ==> r.value.g == st.g && Only(st, r.value, MODEL_NAME, MODEL_NAME) && Within(st, r.value)
  {
    if st.f[MODEL_NAME] && t0 == "*root" then
      var x :- At(t, 1);
      Ok(Put(st, MODEL_NAME, Name(MODEL_NAME) + "=" + x))
    else Ok(st)
  }

  /** number_zones (lines 274-281): the first token of the second line after `* Building`. */
  function NumberZones(t0: string, t: seq<string>, st: State): (r: State)
    ensures Only(st, r, NUMBER_ZONES, NUMBER_ZONES) && Within(st, r)
    ensures r.g == st.g.(countdown := r.g.countdown)
  {
    if !st.f[NUMBER_ZONES] then st
    else if HeadIs(t, "*", "Building") then st.(g := st.g.(countdown := 2))
    else if st.g.countdown == 0 then Put(st, NUMBER_ZONES, Name(NUMBER_ZONES) + "=" + t0)
    else st
  }

  /** model_description (lines 283-291): the first line after `* Building`, its tokens joined
      by single spaces. */
  function Description(t: seq<string>, st: State): (r: State)
    ensures Only(st, r, MODEL_DESCRIPTION, MODEL_DESCRIPTION) && Within(st, r)
    ensures r.g == st.g.(countdown2 := r.g.countdown2)
  {
    if !st.f[MODEL_DESCRIPTION] then st
    else if HeadIs(t, "*", "Building") then st.(g := st.g.(countdown2 := 1))
    else if st.g.countdown2 == 0 then Put(st, MODEL_DESCRIPTION, Name(MODEL_DESCRIPTION) + "=" + Join(" ", t))
    else st
  }

  /** The zone count (lines 293-299): each `*zon` line must carry the count of `*zon` lines so
      far as its index, or the assertion stops the script. */
  function ZoneCounter(t0: string, t: seq<string>, st: State): (r: Res<State>)
    ensures r.Ok? ==> r.value.f == st.f && r.value.v == st.v
    ensures r.Ok? ==> r.value.g == st.g.(zones := r.value.g.zones)
    ensures r.Ok? && t0 != "*zon" ==> r.value == st
    ensures t0 == "*zon" ==> (r.Ok? <==> |t| >= 2 && ParseInt(t[1]) == Some(st.g.zones + 1))
    ensures r.Ok? && t0 == "*zon" ==> r.value.g.zones == st.g.zones + 1
  {
    if t0 == "*zon" then
      var zones := st.g.zones + 1;
      var x :- At(t, 1);
      var n :- Int(x);
      if n == zones then Ok(st.(g := st.g.(zones := zones))) else Fail(Raised(AssertionError))
    else Ok(st)
  }

  /** The passes over a line before the zone extractions, in their order (lines 266-299). */
  function Head(t0: string, t: seq<string>, st: State): (r: Res<State>)
  {
    var a :- ModelName(t0, t, st);
    ZoneCounter(t0, t, Description(t, NumberZones(t0, t, a)))
  }

  // ---------------------------------------------------------------- zone files (lines 301-470)

  /** zone_names (lines 301-329): the zone name a geometry file gives, one per zone. */
  function ZoneNames(env: Env, t0: string, t: seq<string>, st: State): (r: Res<State>)
    ensures r.Ok? ==> RestFrame(st, r.value, t0) && Only(st, r.value, ZONE_NAMES, ZONE_NAMES)
  {
    if st.f[ZONE_NAMES] && t0 == "*geo" then
      var x :- At(t, 1);
      var lines :- Open(env.files, Beside(env, x));
      var name :- EspFiles.ZoneName(lines, Beside(env, x));
      var n :- ZoneTotal(st);
      Ok(ZoneList(st, ZONE_NAMES, name, n))
    else Ok(st)
  }

  /** zone_floor_surfs (lines 332-360): the floor surfaces a geometry file gives, a block line
      per zone. */
  function FloorSurfs(env: Env, t0: string, t: seq<string>, st: State): (r: Res<State>)
    ensures r.Ok? ==> RestFrame(st, r.value, t0) && Only(st, r.value, ZONE_FLOOR_SURFS, ZONE_FLOOR_SURFS)
  {
    if st.f[ZONE_FLOOR_SURFS] && t0 == "*geo" then
      var x :- At(t, 1);
      var lines :- Open(env.files, Beside(env, x));
      var s :- EspFiles.FloorSurfaces(lines, Beside(env, x));
      var n :- ZoneTotal(st);
      Ok(ZoneBlock(st, ZONE_FLOOR_SURFS, s, n))
    else Ok(st)
  }

  /** MRT_sensor_names for a zone with a view factor file (lines 379-430): the sensor names of
      the file; the loop leaves its countdown in i_countdown2 and its counts in the globals. */
  function SensorNames(lines: seq<string>, st: State, n: int): (r: Res<State>)
    ensures r.Ok? ==> && Only(st, r.value, MRT_SENSOR_NAMES, MRT_SENSOR_NAMES)
                      && r.value.g == st.g.(countdown2 := r.value.g.countdown2, sensors := r.value.g.sensors,
                                            surfaces := r.value.g.surfaces)
    ensures r.Ok? && st.f[MRT_SENSOR_NAMES] ==> Within(st, r.value)
  {
    var (m, _) :- EspSensors.MrtNames(lines, st.g.sensors, st.g.surfaces);
    var st1 := ZoneBlock(st, MRT_SENSOR_NAMES, Join(",", m.names), n);
    Ok(st1.(g := st1.g.(countdown2 := m.countdown2, sensors := m.sensors, surfaces := m.surfaces)))
  }

  /** The `*ivf` line of a zone (lines 368-432): the fifth line of the view factor file starts
      with the sensor count. */
  function SensorFile(env: Env, t: seq<string>, st: State): (r: Res<State>)
    requires st.f[MRT_SENSORS]
    ensures r.Ok? ==> RestFrame(st, r.value, "*ivf") && Only(st, r.value, MRT_SENSORS, MRT_SENSOR_NAMES)
  {
    var x :- At(t, 1);
    var lines :- Open(env.files, Beside(env, x));
    var s :- At(LineDown(lines, 0, 5), 0);
    var n :- ZoneTotal(st);
    var st1 := ZoneList(st, MRT_SENSORS, s, n);
    var st2 :- if st1.f[MRT_SENSOR_NAMES] then SensorNames(lines, st1, n) else Ok(st1);
    Ok(st2.(g := st2.g.(vwf := false)))
  }

  /** The `*zend` line of a zone without a view factor file (lines 434-449): no sensors. */
  function SensorsNone(st: State, n: int): (r: State)
    requires st.f[MRT_SENSORS]
    ensures Within(st, r) && Only(st, r, MRT_SENSORS, MRT_SENSOR_NAMES)
    ensures r.g == st.g.(vwf := false)
  {
    var st1 := ZoneList(st, MRT_SENSORS, "0", n);
    var st2 := if st1.f[MRT_SENSOR_NAMES] then ZoneBlock(st1, MRT_SENSOR_NAMES, "", n) else st1;
    st2.(g := st2.g.(vwf := false))
  }

  /** MRT_sensors and MRT_sensor_names (lines 362-449): after a `*zon` line, the `*ivf` line
      names the view factor file; a zone that ends first has none. */
  function Sensors(env: Env, t0: string, t: seq<string>, st: State): (r: Res<State>)
    ensures r.Ok? ==> RestFrame(st, r.value, t0) && Only(st, r.value, MRT_SENSORS, MRT_SENSOR_NAMES)
  {
    if !st.f[MRT_SENSORS] then Ok(st)
    else if t0 == "*zon" then Ok(st.(g := st.g.(vwf := true)))
    else if st.g.vwf && t0 == "*ivf" then SensorFile(env, t, st)
    else if st.g.vwf && t0 == "*zend" then
      var n :- ZoneTotal(st);
      Ok(SensorsNone(st, n))
    else Ok(st)
  }

  /** CFD_domain_files (lines 451-470): the `*cfd` file of each zone, empty for a zone
      without one. */
  function CfdFiles(env: Env, t0: string, t: seq<string>, st: State): (r: Res<State>)
    ensures r.Ok? ==> RestFrame(st, r.value, t0) && Only(st, r.value, CFD_DOMAIN_FILES, CFD_DOMAIN_FILES)
  {
    if !st.f[CFD_DOMAIN_FILES] then Ok(st)
    else if t0 == "*zon" then Ok(st.(g := st.g.(cfd := true)))
    else if st.g.cfd && t0 == "*cfd" then
      var x :- At(t, 1);
      var n :- ZoneTotal(st);
      var st1 := ZoneList(st, CFD_DOMAIN_FILES, Beside(env, x), n);
      Ok(st1.(g := st1.g.(cfd := false)))
    else if st.g.cfd && t0 == "*zend" then
      var n :- ZoneTotal(st);
      var st1 := ZoneList(st, CFD_DOMAIN_FILES, "", n);
      Ok(st1.(g := st1.g.(cfd := false)))
    else Ok(st)
  }

  /** CFD_domains (lines 473-490), once the domain files are all known. */
  function CfdDomains(env: Env, t0: string, st: State): (r: Res<State>)
    ensures r.Ok? ==> RestFrame(st, r.value, t0) && Only(st, r.value, CFD_DOMAINS, CFD_DOMAINS)
  {
    if st.f[CFD_DOMAINS] && !st.f[CFD_DOMAIN_FILES] then
      var entries :- Entries(st.v[CFD_DOMAIN_FILES]);
      var s :- EspSensors.DomainsValue(env.files, entries);
      Ok(Put(st, CFD_DOMAINS, s))
    else Ok(st)
  }

  /** CFD_contaminants (lines 492-521), once the domain files are all known. */
  function CfdContaminants(env: Env, t0: string, st: State): (r: Res<State>)
    ensures r.Ok? ==> RestFrame(st, r.value, t0) && Only(st, r.value, CFD_CONTAMINANTS, CFD_CONTAMINANTS)
  {
    if st.f[CFD_CONTAMINANTS] && !st.f[CFD_DOMAIN_FILES] then
      var entries :- Entries(st.v[CFD_DOMAIN_FILES]);
      var s :- EspSensors.ContaminantsValue(env.files, entries);
      Ok(Put(st, CFD_CONTAMINANTS, s))
    else Ok(st)
  }

  // ---------------------------------------------------------------- Radiance and windows (lines 522-600)

  /** rad_viewpoints (lines 522-543): the views of the Radiance input file the `*rif` line
      leads to; with none, the value stays as it was. */
  function Viewpoints(env: Env, t0: string, t: seq<string>, st: State): (r: Res<State>)
    ensures r.Ok? ==> RestFrame(st, r.value, t0) && Only(st, r.value, RAD_VIEWPOINTS, RAD_VIEWPOINTS)
  {
    if st.f[RAD_VIEWPOINTS] && t0 == "*rif" then
      var x :- At(t, 1);
      var lines :- EspReports.ViewLines(env.files, env.cfgDir, x);
      var s :- EspReports.KeyedValue(lines, "view=", Name(RAD_VIEWPOINTS) + "=", st.v[RAD_VIEWPOINTS]);
      Ok(Put(st, RAD_VIEWPOINTS, s))
    else Ok(st)
  }

  /** rad_scene (lines 545-555). */
  function Scene(env: Env, t0: string, t: seq<string>, st: State): (r: Res<State>)
    ensures r.Ok? ==> RestFrame(st, r.value, t0) && Only(st, r.value, RAD_SCENE, RAD_SCENE)
  {
    if st.f[RAD_SCENE] && t0 == "*rif" then
      var x :- At(t, 1);
      var s :- EspReports.RadianceScene(env.files, env.cfgDir, x);
      Ok(Put(st, RAD_SCENE, Name(RAD_SCENE) + "=" + s))
    else Ok(st)
  }

  /** The numbers of the surfaces listed, as text. */
  function Numerals(nums: seq<int>): (r: seq<string>)
    ensures |r| == |nums| && forall k :: 0 <= k < |nums| ==> r[k] == IntToString(nums[k])
  {
    seq(|nums|, k requires 0 <= k < |nums| => IntToString(nums[k]))
  }

  /** zone_win_surfs (lines 557-603): the window surfaces of each zone, `none` for a zone with
      none. */
  function Windows(env: Env, t0: string, t: seq<string>, st: State): (r: Res<State>)
    ensures r.Ok? ==> RestFrame(st, r.value, t0) && Only(st, r.value, ZONE_WIN_SURFS, ZONE_WIN_SURFS)
  {
    if st.f[ZONE_WIN_SURFS] && t0 == "*geo" then
      var x :- At(t, 1);
      var lines :- Open(env.files, Beside(env, x));
      var nums :- EspFiles.WindowSurfaces(lines, Beside(env, x));
      var n :- ZoneTotal(st);
      Ok(ZoneBlock(st, ZONE_WIN_SURFS, if nums == [] then "none" else Join(",", Numerals(nums)), n))
    else Ok(st)
  }

  // ---------------------------------------------------------------- networks (lines 605-694)

  /** afn_network (lines 605-622): after the `*cnn` line, "0" for no network, or the network
      type ("1" or "3") and then the network file on the next line. */
  function AfnNetwork(t0: string, st: State): (r: State)
    ensures RestFrame(st, r, t0) && Only(st, r, AFN_NETWORK, AFN_NETWORK)
  {
    if !st.f[AFN_NETWORK] then st
    else if t0 == "*cnn" then st.(g := st.g.(afn := 1))
    else if st.g.afn == 1 then
      if t0 == "0" then Put(st, AFN_NETWORK, Name(AFN_NETWORK) + "=")
      else if t0 == "1" then st.(g := st.g.(afn := 2, afnType := 1))
      else if t0 == "3" then st.(g := st.g.(afn := 2, afnType := 3))
      else st
    else if st.g.afn == 2 then Put(st, AFN_NETWORK, Name(AFN_NETWORK) + "=" + t0)
    else st
  }

  /** A value named by a keyword line (lines 624-629, 764-770 and 772-777): the second token of
      the first line that starts with `key`. */
  function Keyword(i: nat, key: string, t0: string, t: seq<string>, st: State): (r: Res<State>)
    requires i < COUNT && !HeadOutput(i)
    ensures r.Ok? ==> RestFrame(st, r.value, t0) && Only(st, r.value, i, i) && r.value.g == st.g
    ensures st.f[i] && t0 == key && |t| >= 2 ==> r == Ok(Put(st, i, Name(i) + "=" + t[1]))
    ensures !st.f[i] || t0 != key ==> r == Ok(st)
  {
    if st.f[i] && t0 == key then
      var x :- At(t, 1);
      Ok(Put(st, i, Name(i) + "=" + x))
    else Ok(st)
  }

  /** number_ctm (lines 631-640): the first token of the fifth line of the contaminant
      network file. */
  function CtmCount(env: Env, st: State): (r: Res<State>)
    ensures r.Ok? ==> RestFrame(st, r.value, "") && Only(st, r.value, NUMBER_CTM, NUMBER_CTM)
  {
    if st.f[NUMBER_CTM] && !st.f[CTM_NETWORK] then
      var p :- At(SplitOn(st.v[CTM_NETWORK], '='), 1);
      var lines :- Open(env.files, Beside(env, p));
      var s :- At(LineDown(lines, 0, 5), 0);
      Ok(Put(st, NUMBER_CTM, Name(NUMBER_CTM) + "=" + s))
    else Ok(st)
  }

  /** afn_zone_nodes (lines 642-652): the line after the network file names the zone nodes;
      from then on the first token of every later line is appended as well. */
  function ZoneNodes(t0: string, st: State): (r: State)
    ensures RestFrame(st, r, t0) && Only(st, r, AFN_ZONE_NODES, AFN_ZONE_NODES)
    ensures r.g == st.g.(afn := r.g.afn)
  {
    if !st.f[AFN_ZONE_NODES] || st.f[AFN_NETWORK] then st
    else if st.g.afn == 2 then st.(g := st.g.(afn := 3))
    else if st.g.afn == 3 then
      var s := Set(st, AFN_ZONE_NODES, Name(AFN_ZONE_NODES) + "=" + t0);
      s.(g := s.g.(afn := 4))
    else if st.g.afn > 3 then Set(st, AFN_ZONE_NODES, st.v[AFN_ZONE_NODES] + t0)
    else st
  }

  /** afn_zon_nod_nums (lines 654-694): the node numbers of the zone nodes in the network
      file; the pass runs again on every later line. */
  function NodeNumbers(env: Env, st: State): (r: Res<State>)
    ensures r.Ok? ==> RestFrame(st, r.value, "") && Only(st, r.value, AFN_ZON_NOD_NUMS, AFN_ZON_NOD_NUMS)
    ensures r.Ok? ==> r.value.f == st.f && r.value.g == st.g
  {
    if st.f[AFN_ZON_NOD_NUMS] && st.g.afn > 3 then
      var names :- Entries(st.v[AFN_ZONE_NODES]);
      var p :- At(SplitOn(st.v[AFN_NETWORK], '='), 1);
      var lines :- Open(env.files, Beside(env, p));
      var nums :- EspNetworks.AfnNodeNumbers(lines, st.g.afnType, names);
      if nums.Some? then Ok(Set(st, AFN_ZON_NOD_NUMS, Name(AFN_ZON_NOD_NUMS) + "=" + Join(",", nums.value)))
      else Ok(st)
    else Ok(st)
  }

  // ---------------------------------------------------------------- control (lines 696-714)

  /** zone_control (lines 696-702): `1` once a `*ctl` line names the control file. */
  function ZoneControl(env: Env, t0: string, t: seq<string>, st: State): (r: Res<State>)
    ensures r.Ok? ==> RestFrame(st, r.value, t0) && Only(st, r.value, ZONE_CONTROL, ZONE_CONTROL)
    ensures r.Ok? && st.f[ZONE_CONTROL] && t0 == "*ctl" ==> r.value.g.ctl.Some? && r.value.v[ZONE_CONTROL] == Name(ZONE_CONTROL) + "=1"
  {
    if st.f[ZONE_CONTROL] && t0 == "*ctl" then
      var x :- At(t, 1);
      var s := Put(st, ZONE_CONTROL, Name(ZONE_CONTROL) + "=1");
      Ok(s.(g := s.g.(ctl := Some(Beside(env, x)))))
    else Ok(st)
  }

  /** zone_setpoints (lines 705-714): with a control file, the `*list` line gives the number of
      day types and the setpoints are read from the control file. */
  function Setpoints(env: Env, t0: string, t: seq<string>, st: State): (r: Res<State>)
    ensures r.Ok? ==> RestFrame(st, r.value, t0) && Only(st, r.value, ZONE_SETPOINTS, ZONE_SETPOINTS)
  {
    if st.f[ZONE_SETPOINTS] && !st.f[ZONE_CONTROL] then
      var c :- At(SplitOn(st.v[ZONE_CONTROL], '='), 1);
      if c == "1" && t0 == "*list" then
        var x :- At(t, 1);
        var n :- Int(x);
        var path :- Known(st.g.ctl);
        var lines :- Open(env.files, path);
        var s :- EspSetpoints.ZoneSetpoints(lines, n);
        Ok(Put(st, ZONE_SETPOINTS, s))
      else Ok(st)
    else Ok(st)
  }

  // ---------------------------------------------------------------- temporal definitions (lines 716-778)

  /** tdfa_file (lines 716-722). */
  function Tdfa(env: Env, t0: string, t: seq<string>, st: State): (r: Res<State>)
    ensures r.Ok? ==> RestFrame(st, r.value, t0) && Only(st, r.value, TDFA_FILE, TDFA_FILE)
  {
    if st.f[TDFA_FILE] && t0 == "*tdf" then
      var x :- At(t, 1);
      var s := Put(st, TDFA_FILE, Name(TDFA_FILE) + "=" + x);
      Ok(s.(g := s.g.(tdfa := Some(Beside(env, x)))))
    else Ok(st)
  }

  /** The token of the third line of the temporal definitions file that a tdfa output
      takes: timestep, start day, end day and number of entities (lines 724-762). */
  function TdfaColumn(i: nat): nat {
    if i == TDFA_TIMESTEP then 2
    else if i == TDFA_STARTDAY then 4
    else if i == TDFA_ENDDAY then 5
    else 1
  }

  /** tdfa_timestep, tdfa_startday, tdfa_endday and tdfa_entities (lines 724-762): a token of
      the third line of the temporal definitions file, once it is known. */
  function TdfaField(env: Env, i: nat, st: State): (r: Res<State>)
    requires TDFA_TIMESTEP <= i <= TDFA_ENTITIES
    ensures r.Ok? ==> RestFrame(st, r.value, "") && Only(st, r.value, i, i)
    ensures r.Ok? && st.f[i] && !st.f[TDFA_FILE] ==>
      && st.g.tdfa.Some? && st.g.tdfa.value in env.files
      && TdfaColumn(i) < |LineDown(env.files[st.g.tdfa.value], 0, 3)|
      && r.value == Put(st, i, Name(i) + "=" + LineDown(env.files[st.g.tdfa.value], 0, 3)[TdfaColumn(i)])
  {
    if st.f[i] && !st.f[TDFA_FILE] then
      var path :- Known(st.g.tdfa);
      var lines :- Open(env.files, path);
      var s :- At(LineDown(lines, 0, 3), TdfaColumn(i));
      Ok(Put(st, i, Name(i) + "=" + s))
    else Ok(st)
  }

  // ---------------------------------------------------------------- weather (lines 779-795)

  /** weather_file (lines 779-795): the `*clm` file, or for `*stdclm` the file in the climate
      directory. */
  function Weather(env: Env, t0: string, t: seq<string>, st: State): (r: Res<State>)
    ensures r.Ok? ==> RestFrame(st, r.value, t0) && Only(st, r.value, WEATHER_FILE, WEATHER_FILE)
    ensures st.f[WEATHER_FILE] && t0 == "*stdclm" && env.climate.Fail? ==> r == Fail(env.climate.why)
  {
    if st.f[WEATHER_FILE] && t0 == "*clm" then
      var x :- At(t, 1);
      Ok(Put(st, WEATHER_FILE, Name(WEATHER_FILE) + "=" + x))
    else if st.f[WEATHER_FILE] && t0 == "*stdclm" then
      var d :- env.climate;
      var x :- At(t, 1);
      Ok(Put(st, WEATHER_FILE, Name(WEATHER_FILE) + "=" + d + "/" + x))
    else Ok(st)
  }

  // ---------------------------------------------------------------- QA report (lines 797-860)

  /** QA_report (lines 797-803). */
  function QaFile(env: Env, t0: string, t: seq<string>, st: State): (r: Res<State>)
    ensures r.Ok? ==> RestFrame(st, r.value, t0) && Only(st, r.value, QA_REPORT, QA_REPORT)
  {
    if st.f[QA_REPORT] && t0 == "*contents" then
      var x :- At(t, 1);
      var s := Put(st, QA_REPORT, Name(QA_REPORT) + "=" + x);
      Ok(s.(g := s.g.(qa := Some(Beside(env, x)))))
    else Ok(st)
  }

  /** total_floor_area, total_volume and zone_volumes (lines 805-860): from the `all` row of
      the QA report's zone table; the pass runs again on later lines while the report has
      no such row. */
  function QaField(env: Env, i: nat, st: State): (r: Res<State>)
    requires TOTAL_FLOOR_AREA <= i <= ZONE_VOLUMES
    ensures r.Ok? ==> RestFrame(st, r.value, "") && Only(st, r.value, i, i)
  {
    if st.f[i] && !st.f[QA_REPORT] then
      var path :- Known(st.g.qa);
      var lines :- Open(env.files, path);
      var q :- EspReports.QaFigures(lines, if i == TOTAL_FLOOR_AREA then 5 else if i == TOTAL_VOLUME then 1 else 0,
                                    i == ZONE_VOLUMES);
      if q.None? then Ok(st)
      else if i == ZONE_VOLUMES then Ok(Put(st, i, Name(i) + "=" + Join(",", q.value.0)))
      else Ok(Put(st, i, Name(i) + "=" + q.value.1))
    else Ok(st)
  }

  // ---------------------------------------------------------------- FMI (lines 862-885)

  /** FMI_config_file (lines 862-868). */
  function FmiFile(env: Env, t0: string, t: seq<string>, st: State): (r: Res<State>)
    ensures r.Ok? ==> RestFrame(st, r.value, t0) && Only(st, r.value, FMI_CONFIG_FILE, FMI_CONFIG_FILE)
  {
    if st.f[FMI_CONFIG_FILE] && t0 == "*FMI" then
      var x :- At(t, 1);
      var s := Put(st, FMI_CONFIG_FILE, Name(FMI_CONFIG_FILE) + "=" + x);
      Ok(s.(g := s.g.(fmi := Some(Beside(env, x)))))
    else Ok(st)
  }

  /** FMU_names (lines 870-885): the names of the FMI configuration file, found at the first
      line after it is known, whether or not it names any. */
  function FmuNames(env: Env, st: State): (r: Res<State>)
    ensures r.Ok? ==> RestFrame(st, r.value, "") && Only(st, r.value, FMU_NAMES, FMU_NAMES)
    ensures r.Ok? && st.f[FMU_NAMES] && !st.f[FMI_CONFIG_FILE] ==> !r.value.f[FMU_NAMES]
  {
    if st.f[FMU_NAMES] && !st.f[FMI_CONFIG_FILE] then
      var path :- Known(st.g.fmi);
      var lines :- Open(env.files, path);
      var s :- EspReports.FmuValue(lines, Name(FMU_NAMES), st.v[FMU_NAMES]);
      Ok(Put(st, FMU_NAMES, s))
    else Ok(st)
  }

  // ---------------------------------------------------------------- visual objects (lines 887-1045)

  /** The word a visual object's name holds for outputs 34 to 38. */
  function ObjectWord(i: nat): string {
    if i == NUMBER_TOILETS then "toilet"
    else if i == NUMBER_URINALS then "urinal"
    else if i == NUMBER_SHOWERS then "shower"
    else if i == NUMBER_PRINTERS then "printer"
    else "photocopy"
  }

  /** The zone's count (or 0 for a zone that ends before its geometry file) joins the list
      and the zone's flag is lowered. */
  function ObjectZone(i: nat, s: string, st: State): (r: Res<State>)
    requires NUMBER_TOILETS <= i <= NUMBER_PHOTOCOPY && st.f[i]
    ensures r.Ok? ==> RestFrame(st, r.value, "") && Only(st, r.value, i, i)
    ensures r.Ok? ==> r.value.g.objects[i - NUMBER_TOILETS] == Some(false)
  {
    var n :- ZoneTotal(st);
    var s1 := ZoneList(st, i, s, n);
    Ok(s1.(g := s1.g.(objects := s1.g.objects[i - NUMBER_TOILETS := Some(false)])))
  }

  /** number_toilets, number_urinals, number_showers, number_printers and number_photocopy
      (lines 887-1045): for each zone, the visual objects of its geometry file whose name holds
      the word. */
  function Objects(env: Env, i: nat, t0: string, t: seq<string>, st: State): (r: Res<State>)
    requires NUMBER_TOILETS <= i <= NUMBER_PHOTOCOPY && st.f[i]
    ensures r.Ok? ==> RestFrame(st, r.value, t0) && Only(st, r.value, i, i)
    ensures t0 != "*zon" && st.g.objects[i - NUMBER_TOILETS].None? ==> r == Fail(Raised(NameError))
  {
    var k := i - NUMBER_TOILETS;
    if t0 == "*zon" then Ok(st.(g := st.g.(objects := st.g.objects[k := Some(true)])))
    else
      var b :- Known(st.g.objects[k]);
      if b && t0 == "*geo" then
        var x :- At(t, 1);
        var lines :- Open(env.files, Beside(env, x));
        var c :- EspObjects.ObjectCount(lines, ObjectWord(i));
        ObjectZone(i, IntToString(c), st)
      else if b && t0 == "*zend" then ObjectZone(i, "0", st)
      else Ok(st)
  }

  // ---------------------------------------------------------------- building and plant (lines 1047-1101)

  /** is_building (lines 1047-1052). */
  function Building(t: seq<string>, st: State): (r: State)
    ensures RestFrame(st, r, "") && Only(st, r, IS_BUILDING, IS_BUILDING) && r.g == st.g
    ensures st.f[IS_BUILDING] && HeadIs(t, "*", "Building") ==> r == Put(st, IS_BUILDING, Name(IS_BUILDING) + "=1")
  {
    if st.f[IS_BUILDING] && HeadIs(t, "*", "Building") then Put(st, IS_BUILDING, Name(IS_BUILDING) + "=1")
    else st
  }

  /** plant_network (lines 1054-1063): the line after `* Plant` names the plant network file. */
  function PlantNetwork(env: Env, t0: string, t: seq<string>, st: State): (r: State)
    ensures RestFrame(st, r, "") && Only(st, r, PLANT_NETWORK, PLANT_NETWORK)
  {
    if !st.f[PLANT_NETWORK] then st
    else if HeadIs(t, "*", "Plant") then st.(g := st.g.(plant := 1))
    else if st.g.plant == 1 then
      var p := Beside(env, t0);
      var s := Put(st, PLANT_NETWORK, Name(PLANT_NETWORK) + "=" + p);
      s.(g := s.g.(plantFile := Some(p), plant := 0))
    else st
  }

  /** plant_components and plant_comp_names (lines 1065-1101): the components of the plant
      network file, read again on every line until all are listed. */
  function PlantComponents(env: Env, st: State): (r: Res<State>)
    ensures r.Ok? ==> RestFrame(st, r.value, "") && Only(st, r.value, PLANT_COMPONENTS, PLANT_COMP_NAMES)
  {
    if (st.f[PLANT_COMPONENTS] || st.f[PLANT_COMP_NAMES]) && !st.f[PLANT_NETWORK] then
      var path :- Known(st.g.plantFile);
      var lines :- Open(env.files, path);
      var heads := (Name(PLANT_COMPONENTS) + "=", Name(PLANT_COMP_NAMES) + "=");
      var start := EspNetworks.PlantStart(st.g.components, st.v[PLANT_COMPONENTS], st.v[PLANT_COMP_NAMES],
                                          st.f[PLANT_COMPONENTS], st.f[PLANT_COMP_NAMES]);
      var (p, _) :- EspNetworks.PlantScan(lines, heads, start);
      PlantWithin(lines, heads, start);
      Ok(st.(f := st.f[PLANT_COMPONENTS := p.wantNumbers][PLANT_COMP_NAMES := p.wantNames],
             v := st.v[PLANT_COMPONENTS := p.numbers][PLANT_COMP_NAMES := p.names],
             g := st.g.(components := p.count)))
    else Ok(st)
  }

  /** An output the plant pass does not look for keeps its value and stays not looked for. */
  lemma PlantWithin(lines: seq<string>, heads: (string, string), start: EspNetworks.Plant)
    ensures var r := EspNetworks.PlantScan(lines, heads, start);
      r.Ok? ==> && (!start.wantNumbers ==> !r.value.0.wantNumbers && r.value.0.numbers == start.numbers)
                && (!start.wantNames ==> !r.value.0.wantNames && r.value.0.names == start.names)
  {
    if !start.wantNumbers {
      EspNetworks.PlantKeepsNumbers(lines, heads, start);
    }
    if !start.wantNames {
      EspNetworks.PlantKeepsNames(lines, heads, start);
    }
  }

  // ---------------------------------------------------------------- one line (lines 258-1101)

  /** The extractions after the first ones, in the order the script runs them over a line;
      MRT_sensor_names runs inside MRT_sensors and plant_comp_names inside plant_components. */
  const PASSES: seq<nat> := [5, 7, 6, 18, 2, 17, 8, 9, 10, 11, 12, 13, 14, 15, 16, 3, 20, 21, 22, 23, 24,
                             25, 26, 27, 28, 29, 30, 31, 32, 33, 34, 35, 36, 37, 38, 39, 40, 41]

  /** The extraction of output `i` over a line whose tokens are `t`, first `t0`. */
  function Pass(env: Env, i: nat, t0: string, t: seq<string>, st: State): (r: Res<State>)
    ensures r.Ok? ==> RestFrame(st, r.value, t0)
  {
    match i
    case 5 => ZoneNames(env, t0, t, st)
    case 7 => FloorSurfs(env, t0, t, st)
    case 6 => Sensors(env, t0, t, st)
    case 18 => CfdFiles(env, t0, t, st)
    case 2 => CfdDomains(env, t0, st)
    case 17 => CfdContaminants(env, t0, st)
    case 8 => Viewpoints(env, t0, t, st)
    case 9 => Scene(env, t0, t, st)
    case 10 => Windows(env, t0, t, st)
    case 11 => Ok(AfnNetwork(t0, st))
    case 12 => Keyword(CTM_NETWORK, "*ctm", t0, t, st)
    case 13 => CtmCount(env, st)
    case 14 => Ok(ZoneNodes(t0, st))
    case 15 => NodeNumbers(env, st)
    case 16 => ZoneControl(env, t0, t, st)
    case 3 => Setpoints(env, t0, t, st)
    case 20 => Tdfa(env, t0, t, st)
    case 25 => Keyword(UNCERTAINTIES_FILE, "*ual", t0, t, st)
    case 26 => Keyword(NUMBER_PRESETS, "*sps", t0, t, st)
    case 27 => Weather(env, t0, t, st)
    case 28 => QaFile(env, t0, t, st)
    case 32 => FmiFile(env, t0, t, st)
    case 33 => FmuNames(env, st)
    case 39 => Ok(Building(t, st))
    case 40 => Ok(PlantNetwork(env, t0, t, st))
    case 41 => PlantComponents(env, st)
    case _ =>
      if TDFA_TIMESTEP <= i <= TDFA_ENTITIES then TdfaField(env, i, st)
      else if TOTAL_FLOOR_AREA <= i <= ZONE_VOLUMES then QaField(env, i, st)
      else if NUMBER_TOILETS <= i <= NUMBER_PHOTOCOPY && st.f[i] then Objects(env, i, t0, t, st)
      else Ok(st)
  }

  /** The passes PASSES[k..] over a line, each on what the one before left. */
  function Rest(env: Env, t0: string, t: seq<string>, st: State, k: nat): (r: Res<State>)
    requires k <= |PASSES|
    ensures r.Ok? ==> RestFrame(st, r.value, t0)
    decreases |PASSES| - k
  {
    if k == |PASSES| then Ok(st)
    else
      var s1 :- Pass(env, PASSES[k], t0, t, st);
      Rest(env, t0, t, s1, k + 1)
  }

  /** One line of the configuration file: stripped and split, the countdowns ticked, then every
      extraction in turn. A blank line has no first token, which the zone count reads
      whatever is looked for. */
  function LineStep(env: Env, line: string, st: State): (r: Res<State>)
    ensures Tokens(line) == [] ==> r == Fail(Raised(IndexError))
    ensures r.Ok? ==> Within(st, r.value)
    ensures r.Ok? ==> r.value.g.zones == st.g.zones + (if IsZoneLine(line) then 1 else 0)
    ensures r.Ok? && IsZoneLine(line) ==> ZoneIndex(line) == Some(st.g.zones + 1)
  {
    var t := Tokens(line);
    if t == [] then Fail(Raised(IndexError))
    else
      var h :- Head(t[0], t, Tick(st));
      Rest(env, t[0], t, h, 0)
  }

  /** The loop over the lines of the configuration file from line `k` on, `step` scanning
      each line: the first line it cannot scan ends the loop and the script. */
  function Fold(step: (string, State) -> Res<State>, lines: seq<string>, k: nat, st: State): Res<State>
    requires k <= |lines|
    decreases |lines| - k
  {
    if k == |lines| then Ok(st)
    else
      var s1 :- step(lines[k], st);
      Fold(step, lines, k + 1, s1)
  }

  /** The scan of a configuration line, as a value the loop can be given. */
  function LineSteps(env: Env): (string, State) -> Res<State> {
    (l, s) => LineStep(env, l, s)
  }

  /** The scan of lines `k` on (lines 258-1101). */
  function ScanFrom(env: Env, lines: seq<string>, k: nat, st: State): (r: Res<State>)
    requires k <= |lines|
    ensures r.Ok? ==> Within(st, r.value)
  {
    LineStepsWithin(env);
    FoldWithin(LineSteps(env), lines, k, st);
    Fold(LineSteps(env), lines, k, st)
  }

  /** A line that opens a zone: its first token is `*zon`. */
  predicate IsZoneLine(line: string) {
    Tokens(line) != [] && Tokens(line)[0] == "*zon"
  }

  /** The zone index a line carries as its second token, if it has one that is a number. */
  function ZoneIndex(line: string): Option<int> {
    if |Tokens(line)| >= 2 then ParseInt(Tokens(line)[1]) else None
  }

  /** The number of lines among lines `k` to `j - 1` that `p` accepts. */
  function CountLines(p: string -> bool, lines: seq<string>, k: nat, j: nat): nat
    requires j <= |lines|
    decreases j - k
  {
    if k >= j then 0 else (if p(lines[k]) then 1 else 0) + CountLines(p, lines, k + 1, j)
  }

  /** The number of zone lines among lines `k` to `j - 1`. */
  function ZoneLines(lines: seq<string>, k: nat, j: nat): nat
    requires j <= |lines|
  {
    CountLines(IsZoneLine, lines, k, j)
  }

  // ---------------------------------------------------------------- what the scan promises

  /** From `a` to `c` through `b`, flags only fall and found values stay. */
  lemma WithinTrans(a: State, b: State, c: State)
    requires Within(a, b) && Within(b, c)
    ensures Within(a, c)
  {
  }

  /** Each line scanned only lowers flags and writes outputs still looked for. */
  ghost predicate KeepsWithin(step: (string, State) -> Res<State>) {
    forall l, s :: step(l, s).Ok? ==> Within(s, step(l, s).value)
  }

  lemma {:induction false} FoldWithin(step: (string, State) -> Res<State>, lines: seq<string>, k: nat, st: State)
    requires k <= |lines| && KeepsWithin(step)
    ensures Fold(step, lines, k, st).Ok? ==> Within(st, Fold(step, lines, k, st).value)
    decreases |lines| - k
  {
    if k < |lines| && step(lines[k], st).Ok? {
      var s1 := step(lines[k], st).value;
      FoldWithin(step, lines, k + 1, s1);
      if Fold(step, lines, k + 1, s1).Ok? {
        WithinTrans(st, s1, Fold(step, lines, k + 1, s1).value);
      }
    }
  }

  /** Each line scanned counts the zone it opens (a line `isz` accepts), whose index (`idx`
      of the line) must be the new count. */
  ghost predicate CountsZones(step: (string, State) -> Res<State>, isz: string -> bool, idx: string -> Option<int>) {
    forall l, s :: step(l, s).Ok? ==>
      && step(l, s).value.g.zones == s.g.zones + (if isz(l) then 1 else 0)
      && (isz(l) ==> idx(l) == Some(s.g.zones + 1))
  }

  lemma LineStepsWithin(env: Env)
    ensures KeepsWithin(LineSteps(env)) && CountsZones(LineSteps(env), IsZoneLine, ZoneIndex)
  {
    var step := LineSteps(env);
    forall l, s | step(l, s).Ok?
      ensures Within(s, step(l, s).value)
      ensures step(l, s).value.g.zones == s.g.zones + (if IsZoneLine(l) then 1 else 0)
      ensures IsZoneLine(l) ==> ZoneIndex(l) == Some(s.g.zones + 1)
    {
      assert step(l, s) == LineStep(env, l, s);
    }
  }

  lemma {:induction false} FoldZoneIndices(step: (string, State) -> Res<State>, isz: string -> bool,
                                           idx: string -> Option<int>, lines: seq<string>, k: nat, st: State, j: nat)
    requires k <= j < |lines| && isz(lines[j]) && CountsZones(step, isz, idx)
    requires Fold(step, lines, k, st).Ok?
    ensures idx(lines[j]) == Some(st.g.zones + CountLines(isz, lines, k, j) + 1)
    decreases j - k
  {
    FoldStep(step, lines, k, st);
    var s1 := step(lines[k], st).value;
    if k < j {
      FoldZoneIndices(step, isz, idx, lines, k + 1, s1, j);
    }
  }

  /** A loop that gets through lines `k` on gets through line `k` and then the lines after. */
  lemma FoldStep(step: (string, State) -> Res<State>, lines: seq<string>, k: nat, st: State)
    requires k < |lines| && Fold(step, lines, k, st).Ok?
    ensures step(lines[k], st).Ok? && Fold(step, lines, k, st) == Fold(step, lines, k + 1, step(lines[k], st).value)
  {
  }

  /** A scan that gets through the file numbers its zones 1, 2, 3, ... in order: each `*zon`
      line carries one more than the zones seen before it (lines 293-299). */
  lemma ZoneIndices(env: Env, lines: seq<string>, k: nat, st: State, j: nat)
    requires k <= j < |lines| && IsZoneLine(lines[j])
    requires ScanFrom(env, lines, k, st).Ok?
    ensures ZoneIndex(lines[j]) == Some(st.g.zones + ZoneLines(lines, k, j) + 1)
  {
    LineStepsWithin(env);
    FoldZoneLines(LineSteps(env), lines, k, st, j);
  }

  lemma FoldZoneLines(step: (string, State) -> Res<State>, lines: seq<string>, k: nat, st: State, j: nat)
    requires k <= j < |lines| && IsZoneLine(lines[j]) && CountsZones(step, IsZoneLine, ZoneIndex)
    requires Fold(step, lines, k, st).Ok?
    ensures ZoneIndex(lines[j]) == Some(st.g.zones + ZoneLines(lines, k, j) + 1)
  {
    FoldZoneIndices(step, IsZoneLine, ZoneIndex, lines, k, st, j);
  }

  /** The scan of a line after its tokens are read: the first passes, then the rest, which
      keep what the first passes found. */
  lemma LineStepHead(env: Env, line: string, st: State)
    requires LineStep(env, line, st).Ok?
    ensures Tokens(line) != []
    ensures var t := Tokens(line);
      && Head(t[0], t, Tick(st)).Ok?
      && RestFrame(Head(t[0], t, Tick(st)).value, LineStep(env, line, st).value, t[0])
  {
  }

  /** How a line scanned moves the countdowns of the `* Building` line: that line starts them,
      and the lines after it tick them down to the fields they lead to. */
  ghost predicate ReadsBuilding(step: (string, State) -> Res<State>) {
    forall l, s :: step(l, s).Ok? && s.f[NUMBER_ZONES] ==>
      if HeadIs(Tokens(l), "*", "Building") then step(l, s).value.f[NUMBER_ZONES] && step(l, s).value.g.countdown == 2
      else if s.g.countdown == 2 then step(l, s).value.f[NUMBER_ZONES] && step(l, s).value.g.countdown == 1
      else s.g.countdown == 1 ==>
        Tokens(l) != [] && !step(l, s).value.f[NUMBER_ZONES]
        && step(l, s).value.v[NUMBER_ZONES] == Name(NUMBER_ZONES) + "=" + Tokens(l)[0]
  }

  ghost predicate ReadsDescription(step: (string, State) -> Res<State>) {
    forall l, s :: step(l, s).Ok? && s.f[MODEL_DESCRIPTION] ==>
      if HeadIs(Tokens(l), "*", "Building") then step(l, s).value.f[MODEL_DESCRIPTION] && step(l, s).value.g.countdown2 == 1
      else s.g.countdown2 == 1 ==>
        !step(l, s).value.f[MODEL_DESCRIPTION]
        && step(l, s).value.v[MODEL_DESCRIPTION] == Name(MODEL_DESCRIPTION) + "=" + Join(" ", Tokens(l))
  }

  /** What the first passes of a line do to number_zones and the countdowns. */
  lemma HeadReadsBuilding(t: seq<string>, s: State)
    requires t != [] && s.f[NUMBER_ZONES] && Head(t[0], t, Tick(s)).Ok?
    ensures var h := Head(t[0], t, Tick(s)).value;
      if HeadIs(t, "*", "Building") then h.f[NUMBER_ZONES] && h.g.countdown == 2
      else if s.g.countdown == 2 then h.f[NUMBER_ZONES] && h.g.countdown == 1
      else s.g.countdown == 1 ==>
        !h.f[NUMBER_ZONES] && h.v[NUMBER_ZONES] == Name(NUMBER_ZONES) + "=" + t[0]
  {
  }

  /** What the first passes of a line do to model_description and its countdown. */
  lemma HeadReadsDescription(t: seq<string>, s: State)
    requires t != [] && s.f[MODEL_DESCRIPTION] && Head(t[0], t, Tick(s)).Ok?
    ensures var h := Head(t[0], t, Tick(s)).value;
      if HeadIs(t, "*", "Building") then h.f[MODEL_DESCRIPTION] && h.g.countdown2 == 1 && t[0] != "*ivf"
      else s.g.countdown2 == 1 ==>
        !h.f[MODEL_DESCRIPTION] && h.v[MODEL_DESCRIPTION] == Name(MODEL_DESCRIPTION) + "=" + Join(" ", t)
  {
  }

  lemma LineStepsBuilding(env: Env)
    ensures ReadsBuilding(LineSteps(env))
  {
    var step := LineSteps(env);
    forall l, s | step(l, s).Ok? && s.f[NUMBER_ZONES]
      ensures if HeadIs(Tokens(l), "*", "Building") then step(l, s).value.f[NUMBER_ZONES] && step(l, s).value.g.countdown == 2
        else if s.g.countdown == 2 then step(l, s).value.f[NUMBER_ZONES] && step(l, s).value.g.countdown == 1
        else s.g.countdown == 1 ==>
          Tokens(l) != [] && !step(l, s).value.f[NUMBER_ZONES]
          && step(l, s).value.v[NUMBER_ZONES] == Name(NUMBER_ZONES) + "=" + Tokens(l)[0]
    {
      assert step(l, s) == LineStep(env, l, s);
      LineStepHead(env, l, s);
      HeadReadsBuilding(Tokens(l), s);
    }
  }

  lemma LineStepsDescription(env: Env)
    ensures ReadsDescription(LineSteps(env))
  {
    var step := LineSteps(env);
    forall l, s | step(l, s).Ok? && s.f[MODEL_DESCRIPTION]
      ensures if HeadIs(Tokens(l), "*", "Building") then step(l, s).value.f[MODEL_DESCRIPTION] && step(l, s).value.g.countdown2 == 1
        else s.g.countdown2 == 1 ==>
          !step(l, s).value.f[MODEL_DESCRIPTION]
          && step(l, s).value.v[MODEL_DESCRIPTION] == Name(MODEL_DESCRIPTION) + "=" + Join(" ", Tokens(l))
    {
      assert step(l, s) == LineStep(env, l, s);
      LineStepHead(env, l, s);
      HeadReadsDescription(Tokens(l), s);
    }
  }

  lemma FoldNumberZones(step: (string, State) -> Res<State>, lines: seq<string>, k: nat, st: State)
    requires k + 2 < |lines| && st.f[NUMBER_ZONES] && ReadsBuilding(step) && KeepsWithin(step)
    requires HeadIs(Tokens(lines[k]), "*", "Building")
    requires !HeadIs(Tokens(lines[k + 1]), "*", "Building") && !HeadIs(Tokens(lines[k + 2]), "*", "Building")
    requires Fold(step, lines, k, st).Ok?
    ensures Tokens(lines[k + 2]) != []
    ensures var r := Fold(step, lines, k, st).value;
      !r.f[NUMBER_ZONES] && r.v[NUMBER_ZONES] == Name(NUMBER_ZONES) + "=" + Tokens(lines[k + 2])[0]
  {
    FoldStep(step, lines, k, st);
    var s1 := step(lines[k], st).value;
    assert s1.f[NUMBER_ZONES] && s1.g.countdown == 2;
    FoldStep(step, lines, k + 1, s1);
    var s2 := step(lines[k + 1], s1).value;
    assert s2.f[NUMBER_ZONES] && s2.g.countdown == 1;
    FoldStep(step, lines, k + 2, s2);
    var s3 := step(lines[k + 2], s2).value;
    assert !s3.f[NUMBER_ZONES] && s3.v[NUMBER_ZONES] == Name(NUMBER_ZONES) + "=" + Tokens(lines[k + 2])[0];
    FoldWithin(step, lines, k + 3, s3);
  }

  /** number_zones is the first token of the second line after `* Building`
      (lines 274-281), and nothing later replaces it. */
  lemma NumberZonesRead(env: Env, lines: seq<string>, k: nat, st: State)
    requires k + 2 < |lines| && st.f[NUMBER_ZONES]
    requires HeadIs(Tokens(lines[k]), "*", "Building")
    requires !HeadIs(Tokens(lines[k + 1]), "*", "Building") && !HeadIs(Tokens(lines[k + 2]), "*", "Building")
    requires ScanFrom(env, lines, k, st).Ok?
    ensures Tokens(lines[k + 2]) != []
    ensures var r := ScanFrom(env, lines, k, st).value;
      !r.f[NUMBER_ZONES] && r.v[NUMBER_ZONES] == Name(NUMBER_ZONES) + "=" + Tokens(lines[k + 2])[0]
  {
    LineStepsWithin(env);
    LineStepsBuilding(env);
    FoldNumberZones(LineSteps(env), lines, k, st);
  }

  lemma FoldDescription(step: (string, State) -> Res<State>, lines: seq<string>, k: nat, st: State)
    requires k + 1 < |lines| && st.f[MODEL_DESCRIPTION] && ReadsDescription(step) && KeepsWithin(step)
    requires HeadIs(Tokens(lines[k]), "*", "Building") && !HeadIs(Tokens(lines[k + 1]), "*", "Building")
    requires Fold(step, lines, k, st).Ok?
    ensures var r := Fold(step, lines, k, st).value;
      !r.f[MODEL_DESCRIPTION] && r.v[MODEL_DESCRIPTION] == Name(MODEL_DESCRIPTION) + "=" + Join(" ", Tokens(lines[k + 1]))
  {
    FoldStep(step, lines, k, st);
    var s1 := step(lines[k], st).value;
    FoldStep(step, lines, k + 1, s1);
    var s2 := step(lines[k + 1], s1).value;
    FoldWithin(step, lines, k + 2, s2);
  }

  /** model_description is the line after `* Building`, its tokens joined by single spaces
      (lines 283-291), and nothing later replaces it. */
  lemma DescriptionRead(env: Env, lines: seq<string>, k: nat, st: State)
    requires k + 1 < |lines| && st.f[MODEL_DESCRIPTION]
    requires HeadIs(Tokens(lines[k]), "*", "Building") && !HeadIs(Tokens(lines[k + 1]), "*", "Building")
    requires ScanFrom(env, lines, k, st).Ok?
    ensures var r := ScanFrom(env, lines, k, st).value;
      !r.f[MODEL_DESCRIPTION] && r.v[MODEL_DESCRIPTION] == Name(MODEL_DESCRIPTION) + "=" + Join(" ", Tokens(lines[k + 1]))
  {
    LineStepsWithin(env);
    LineStepsDescription(env);
    FoldDescription(LineSteps(env), lines, k, st);
  }

  /** Zone after zone, a per-zone list holds `name=` and the zones' entries joined by commas. */
  lemma ZoneListJoin(st: State, i: nat, vs: seq<string>, s: string, n: int)
    requires i < COUNT
    requires st.g.zones == 1 ==> vs == []
    requires st.g.zones != 1 ==> vs != [] && st.v[i] == Name(i) + "=" + Join(",", vs)
    ensures ZoneList(st, i, s, n).v[i] == Name(i) + "=" + Join(",", vs + [s])
  {
    if vs == [] {
      assert vs + [s] == [s];
    } else {
      JoinSnoc(",", vs, s);
    }
  }

  /** The entries of a per-zone list read back as the zones' entries, when neither the name
      nor an entry holds '=' or ','. */
  lemma EntriesOfList(name: string, vs: seq<string>)
    requires vs != [] && '=' !in name
    requires forall k :: 0 <= k < |vs| ==> '=' !in vs[k] && ',' !in vs[k]
    ensures Entries(name + "=" + Join(",", vs)) == Ok(vs)
  {
    var j := Join(",", vs);
    JoinAvoids(",", vs, '=');
    assert name + "=" + j == name + ['='] + j;
    SplitOnCons(name, '=', j);
    FindAbsent(j, '=');
    assert SplitOn(j, '=') == [j];
    assert SplitOn(name + "=" + j, '=') == [name, j];
    SplitOnJoin(vs, ',');
  }

  // ---------------------------------------------------------------- the object flags (lines 250-257, 887-1045)

  /** The globals before the first line as the script sets them: b_toilet, b_urinal, b_shower,
      b_printer and b_photocopy are not among them, so they are unassigned. */
  function StartGlobalsAsWritten(): (g: Globals)
    ensures |g.objects| == 5 && forall k :: 0 <= k < 5 ==> g.objects[k].None?
  {
    StartGlobals().(objects := [None, None, None, None, None])
  }

  /** An extraction that is not looked for leaves a line's scan as it is. */
  predicate Idle(st: State, i: nat) {
    i < COUNT && !st.f[i] && (i == PLANT_COMPONENTS ==> !st.f[PLANT_COMP_NAMES])
      && (i == MRT_SENSORS ==> !st.f[MRT_SENSOR_NAMES])
  }

  lemma PassIdle(env: Env, i: nat, t0: string, t: seq<string>, st: State)
    requires Idle(st, i)
    ensures Pass(env, i, t0, t, st) == Ok(st)
  {
  }

  /** Passes `k` to `m - 1` that are not looked for leave the line's scan to pass `m`. */
  lemma {:induction false} RestIdle(env: Env, t0: string, t: seq<string>, st: State, k: nat, m: nat)
    requires k <= m <= |PASSES| && forall n :: k <= n < m ==> Idle(st, PASSES[n])
    ensures Rest(env, t0, t, st, k) == Rest(env, t0, t, st, m)
    decreases m - k
  {
    if k < m {
      PassIdle(env, PASSES[k], t0, t, st);
      RestIdle(env, t0, t, st, k + 1, m);
    }
  }

  /** Looking only for number_toilets (and the number_zones it needs). */
  predicate ToiletsOnly(st: State) {
    forall k :: 0 <= k < COUNT ==> (st.f[k] <==> k == NUMBER_ZONES || k == NUMBER_TOILETS)
  }

  /** number_toilets is the 31st pass after the first ones, and number_zones is none of them. */
  lemma ToiletsPass()
    ensures PASSES[30] == NUMBER_TOILETS
    ensures forall n :: 0 <= n < |PASSES| && n != 30 ==> PASSES[n] < COUNT && PASSES[n] != NUMBER_ZONES && PASSES[n] != NUMBER_TOILETS
  {
  }

  /** When only number_toilets is looked for, every other pass is idle. */
  lemma ToiletsOnlyIdle(st: State)
    requires ToiletsOnly(st)
    ensures forall n :: 0 <= n < |PASSES| && n != 30 ==> Idle(st, PASSES[n])
  {
    ToiletsPass();
  }

  /** Before the first zone, the first passes change no flag, no value and no object flag. */
  lemma HeadBeforeZones(t: seq<string>, st: State)
    requires t != [] && t[0] != "*zon" && !st.f[MODEL_NAME] && !st.f[MODEL_DESCRIPTION] && st.g.countdown < 0
    ensures Head(t[0], t, Tick(st)).Ok?
    ensures var h := Head(t[0], t, Tick(st)).value; h.f == st.f && h.v == st.v && h.g.objects == st.g.objects
  {
  }

  /** The toilets pass on a line that does not open a zone, its flag unassigned. */
  lemma ToiletsPassFails(env: Env, t0: string, t: seq<string>, h: State)
    requires h.f[NUMBER_TOILETS] && h.g.objects[0].None? && t0 != "*zon"
    ensures Rest(env, t0, t, h, 30) == Fail(Raised(NameError))
  {
    ToiletsPass();
    assert Pass(env, NUMBER_TOILETS, t0, t, h) == Fail(Raised(NameError));
  }

  /** The toilets pass on a line that does not open a zone, its flag False. */
  lemma ToiletsPassKeeps(env: Env, t0: string, t: seq<string>, h: State)
    requires h.f[NUMBER_TOILETS] && h.g.objects[0] == Some(false) && t0 != "*zon"
    ensures Rest(env, t0, t, h, 30) == Rest(env, t0, t, h, 31)
  {
    ToiletsPass();
    assert Pass(env, NUMBER_TOILETS, t0, t, h) == Ok(h);
  }

  /** A line with tokens is scanned by the first passes and then by the rest. */
  lemma LineStepSplit(env: Env, line: string, st: State)
    requires Tokens(line) != []
    ensures var t := Tokens(line); var h := Head(t[0], t, Tick(st));
      LineStep(env, line, st) == if h.Ok? then Rest(env, t[0], t, h.value, 0) else Fail(h.why)
  {
  }

  /** When only number_toilets (and the zone count it needs) is looked for, the later passes
      over a line that does not open a zone fail when the toilets flag is unassigned. */
  lemma ToiletsRestFails(env: Env, t0: string, t: seq<string>, h: State)
    requires ToiletsOnly(h) && h.g.objects[0].None? && t0 != "*zon"
    ensures Rest(env, t0, t, h, 0) == Fail(Raised(NameError))
  {
    ToiletsOnlyIdle(h);
    ToiletsPass();
    RestIdle(env, t0, t, h, 0, 30);
    ToiletsPassFails(env, t0, t, h);
  }

  /** The same passes leave the state as it is when the toilets flag is False. */
  lemma ToiletsRestKeeps(env: Env, t0: string, t: seq<string>, h: State)
    requires ToiletsOnly(h) && h.g.objects[0] == Some(false) && t0 != "*zon"
    ensures Rest(env, t0, t, h, 0) == Ok(h)
  {
    ToiletsOnlyIdle(h);
    ToiletsPass();
    RestIdle(env, t0, t, h, 0, 30);
    ToiletsPassKeeps(env, t0, t, h);
    RestIdle(env, t0, t, h, 31, |PASSES|);
  }

  /** As written, a request for number_toilets stops at the first line of every configuration
      file that does not open a zone: the flag is read before it has a value. */
  lemma ToiletsAsWrittenFail(env: Env, line: string, st: State)
    requires st.g == StartGlobalsAsWritten() && ToiletsOnly(st)
    requires Tokens(line) != [] && !IsZoneLine(line)
    ensures LineStep(env, line, st) == Fail(Raised(NameError))
  {
    var t := Tokens(line);
    HeadBeforeZones(t, st);
    ToiletsRestFails(env, t[0], t, Head(t[0], t, Tick(st)).value);
    LineStepSplit(env, line, st);
  }

  /** With the flags set to False before the scan, such a line leaves the counts untouched and
      the scan goes on. */
  lemma ToiletsBeforeZones(env: Env, line: string, st: State)
    requires st.g == StartGlobals() && ToiletsOnly(st)
    requires Tokens(line) != [] && !IsZoneLine(line)
    ensures LineStep(env, line, st).Ok?
    ensures LineStep(env, line, st).value.v[NUMBER_TOILETS] == st.v[NUMBER_TOILETS]
    ensures LineStep(env, line, st).value.f[NUMBER_TOILETS]
  {
    var t := Tokens(line);
    HeadBeforeZones(t, st);
    ToiletsRestKeeps(env, t[0], t, Head(t[0], t, Tick(st)).value);
    LineStepSplit(env, line, st);
  }

  // ---------------------------------------------------------------- the values the passes write

  /** A per-zone list once the current zone's entry `s` is added. */
  function ListWith(st: State, i: nat, s: string): string
    requires i < COUNT
  {
    if st.g.zones == 1 then Name(i) + "=" + s else st.v[i] + "," + s
  }

  /** A per-zone block once the current zone's line with entry `s` is added. */
  function BlockWith(st: State, i: nat, s: string): string
    requires i < COUNT
  {
    (if st.g.zones == 1 then Name(i) + ":\n" else st.v[i]) + "  zone#" + IntToString(st.g.zones) + "=" + s + "\n"
  }

  /** A zone without a view factor file has no sensors: 0 joins MRT_sensors and an empty
      line joins MRT_sensor_names (lines 434-449). */
  lemma SensorsNoneWrites(st: State, n: int)
    requires st.f[MRT_SENSORS]
    ensures var r := SensorsNone(st, n);
      && r.v[MRT_SENSORS] == ListWith(st, MRT_SENSORS, "0")
      && r.v[MRT_SENSOR_NAMES] == if st.f[MRT_SENSOR_NAMES] then BlockWith(st, MRT_SENSOR_NAMES, "") else st.v[MRT_SENSOR_NAMES]
  {
  }

  /** The zone's line of MRT_sensor_names holds the names the view factor file lists
      (lines 379-430). */
  lemma SensorNamesWrites(lines: seq<string>, st: State, n: int)
    requires st.f[MRT_SENSOR_NAMES]
    ensures var r := SensorNames(lines, st, n);
      r.Ok? ==> && EspSensors.MrtNames(lines, st.g.sensors, st.g.surfaces).Ok?
                && r.value.v[MRT_SENSOR_NAMES]
                   == BlockWith(st, MRT_SENSOR_NAMES, Join(",", EspSensors.MrtNames(lines, st.g.sensors, st.g.surfaces).value.0.names))
  {
  }

  /** A zone's `*ivf` line adds the first token of the fifth line of its view factor file to
      MRT_sensors, and the file's sensor names to MRT_sensor_names (lines 368-432). */
  lemma SensorFileWrites(env: Env, t: seq<string>, st: State)
    requires st.f[MRT_SENSORS]
    ensures var r := SensorFile(env, t, st);
      r.Ok? ==>
        && |t| >= 2 && Beside(env, t[1]) in env.files
        && var lines := env.files[Beside(env, t[1])];
           && LineDown(lines, 0, 5) != []
           && r.value.v[MRT_SENSORS] == ListWith(st, MRT_SENSORS, LineDown(lines, 0, 5)[0])
           && (st.f[MRT_SENSOR_NAMES] ==>
                 && EspSensors.MrtNames(lines, st.g.sensors, st.g.surfaces).Ok?
                 && r.value.v[MRT_SENSOR_NAMES]
                    == BlockWith(st, MRT_SENSOR_NAMES, Join(",", EspSensors.MrtNames(lines, st.g.sensors, st.g.surfaces).value.0.names)))
  {
    var r := SensorFile(env, t, st);
    if r.Ok? {
      var lines := env.files[Beside(env, t[1])];
      var n := ZoneTotal(st).value;
      var st1 := ZoneList(st, MRT_SENSORS, LineDown(lines, 0, 5)[0], n);
      if st.f[MRT_SENSOR_NAMES] {
        SensorNamesWrites(lines, st1, n);
      }
    }
  }

  /** weather_file is the `*clm` file, or for `*stdclm` the file in the climate folder
      (lines 779-795). */
  lemma WeatherWrites(env: Env, t0: string, t: seq<string>, st: State)
    requires st.f[WEATHER_FILE] && |t| >= 2
    ensures t0 == "*clm" ==> Weather(env, t0, t, st) == Ok(Put(st, WEATHER_FILE, Name(WEATHER_FILE) + "=" + t[1]))
    ensures t0 == "*stdclm" && env.climate.Ok? ==>
      Weather(env, t0, t, st) == Ok(Put(st, WEATHER_FILE, Name(WEATHER_FILE) + "=" + env.climate.value + "/" + t[1]))
  {
  }

  /** Once the FMI configuration file is known, FMU_names takes the value read from that
      file (lines 870-885). */
  lemma FmuNamesWrites(env: Env, st: State)
    requires st.f[FMU_NAMES] && !st.f[FMI_CONFIG_FILE]
    ensures FmuNames(env, st).Ok? <==>
      && st.g.fmi.Some? && st.g.fmi.value in env.files
      && EspReports.FmuValue(env.files[st.g.fmi.value], Name(FMU_NAMES), st.v[FMU_NAMES]).Ok?
    ensures FmuNames(env, st).Ok? ==>
      FmuNames(env, st).value.v[FMU_NAMES]
      == EspReports.FmuValue(env.files[st.g.fmi.value], Name(FMU_NAMES), st.v[FMU_NAMES]).value
  {
  }

  /** A zone's count joins the per-zone list of the object output. */
  lemma ObjectZoneWrites(i: nat, s: string, st: State)
    requires NUMBER_TOILETS <= i <= NUMBER_PHOTOCOPY && st.f[i]
    ensures ObjectZone(i, s, st).Ok? <==> ZoneTotal(st).Ok?
    ensures ObjectZone(i, s, st).Ok? ==> ObjectZone(i, s, st).value.v[i] == ListWith(st, i, s)
  {
  }

  /** Inside a zone, its geometry file's count of objects named after the word joins the
      list; a zone that ends without a geometry file adds 0 (lines 887-1045). */
  lemma ObjectsWrites(env: Env, i: nat, t0: string, t: seq<string>, st: State)
    requires NUMBER_TOILETS <= i <= NUMBER_PHOTOCOPY && st.f[i]
    requires st.g.objects[i - NUMBER_TOILETS] == Some(true)
    ensures var r := Objects(env, i, t0, t, st);
      t0 == "*geo" && r.Ok? ==>
        && |t| >= 2 && Beside(env, t[1]) in env.files
        && EspObjects.ObjectCount(env.files[Beside(env, t[1])], ObjectWord(i)).Ok?
        && r.value.v[i] == ListWith(st, i, IntToString(EspObjects.ObjectCount(env.files[Beside(env, t[1])], ObjectWord(i)).value))
    ensures var r := Objects(env, i, t0, t, st);
      t0 == "*zend" && r.Ok? ==> r.value.v[i] == ListWith(st, i, "0")
  {
  }

  /** The `*root` line names the model: model_name is its second token (lines 266-272). */
  lemma ModelNameWrites(t0: string, t: seq<string>, st: State)
    requires st.f[MODEL_NAME] && t0 == "*root"
    ensures ModelName(t0, t, st).Ok? <==> |t| >= 2
    ensures ModelName(t0, t, st).Ok? ==>
      ModelName(t0, t, st).value.v[MODEL_NAME] == Name(MODEL_NAME) + "=" + t[1] && !ModelName(t0, t, st).value.f[MODEL_NAME]
  {
  }

  /** Inside a zone, its `*cfd` file, beside the configuration file, joins CFD_domain_files;
      a zone that ends without one adds an empty entry (lines 451-470). */
  lemma CfdFilesWrites(env: Env, t0: string, t: seq<string>, st: State)
    requires st.f[CFD_DOMAIN_FILES] && st.g.cfd
    ensures var r := CfdFiles(env, t0, t, st);
      t0 == "*cfd" ==>
        && (r.Ok? <==> |t| >= 2 && ZoneTotal(st).Ok?)
        && (r.Ok? ==> r.value.v[CFD_DOMAIN_FILES] == ListWith(st, CFD_DOMAIN_FILES, Beside(env, t[1])) && !r.value.g.cfd)
    ensures var r := CfdFiles(env, t0, t, st);
      t0 == "*zend" ==>
        && (r.Ok? <==> ZoneTotal(st).Ok?)
        && (r.Ok? ==> r.value.v[CFD_DOMAIN_FILES] == ListWith(st, CFD_DOMAIN_FILES, "") && !r.value.g.cfd)
  {
  }

  /** After `*cnn`, a "0" line records an empty afn_network; a "1" or "3" line sets the
      network type, and the next line is the network file (lines 605-622). */
  lemma AfnNetworkWrites(t0: string, st: State)
    requires st.f[AFN_NETWORK]
    ensures t0 == "*cnn" ==> AfnNetwork(t0, st).g.afn == 1
    ensures var r := AfnNetwork(t0, st);
      t0 != "*cnn" && st.g.afn == 1 ==>
        && (t0 == "0" ==> r.v[AFN_NETWORK] == Name(AFN_NETWORK) + "=" && !r.f[AFN_NETWORK])
        && (t0 == "1" ==> r.f[AFN_NETWORK] && r.g.afn == 2 && r.g.afnType == 1)
        && (t0 == "3" ==> r.f[AFN_NETWORK] && r.g.afn == 2 && r.g.afnType == 3)
    ensures t0 != "*cnn" && st.g.afn == 2 ==>
      AfnNetwork(t0, st).v[AFN_NETWORK] == Name(AFN_NETWORK) + "=" + t0 && !AfnNetwork(t0, st).f[AFN_NETWORK]
  {
  }

  /** Once the contaminant network is known, number_ctm is the first token of the fifth line
      of its file, beside the configuration file (lines 631-640). */
  lemma CtmCountWrites(env: Env, st: State)
    requires st.f[NUMBER_CTM] && !st.f[CTM_NETWORK]
    ensures var ps := SplitOn(st.v[CTM_NETWORK], '=');
      CtmCount(env, st).Ok? <==>
        |ps| >= 2 && Beside(env, ps[1]) in env.files && LineDown(env.files[Beside(env, ps[1])], 0, 5) != []
    ensures var ps := SplitOn(st.v[CTM_NETWORK], '=');
      CtmCount(env, st).Ok? ==>
        && CtmCount(env, st).value.v[NUMBER_CTM] == Name(NUMBER_CTM) + "=" + LineDown(env.files[Beside(env, ps[1])], 0, 5)[0]
        && !CtmCount(env, st).value.f[NUMBER_CTM]
  {
  }

  /** A `*tdf` line records the temporal definitions file, and the file beside the
      configuration file is read later (lines 716-722). */
  lemma TdfaWrites(env: Env, t0: string, t: seq<string>, st: State)
    requires st.f[TDFA_FILE] && t0 == "*tdf"
    ensures Tdfa(env, t0, t, st).Ok? <==> |t| >= 2
    ensures var r := Tdfa(env, t0, t, st);
      r.Ok? ==> r.value.v[TDFA_FILE] == Name(TDFA_FILE) + "=" + t[1] && !r.value.f[TDFA_FILE] && r.value.g.tdfa == Some(Beside(env, t[1]))
  {
  }

  /** A `*contents` line records the QA report, and the file beside the configuration file
      is read later (lines 797-803). */
  lemma QaFileWrites(env: Env, t0: string, t: seq<string>, st: State)
    requires st.f[QA_REPORT] && t0 == "*contents"
    ensures QaFile(env, t0, t, st).Ok? <==> |t| >= 2
    ensures var r := QaFile(env, t0, t, st);
      r.Ok? ==> r.value.v[QA_REPORT] == Name(QA_REPORT) + "=" + t[1] && !r.value.f[QA_REPORT] && r.value.g.qa == Some(Beside(env, t[1]))
  {
  }

  /** A `*FMI` line records the FMI configuration file, and the file beside the
      configuration file is read later (lines 862-868). */
  lemma FmiFileWrites(env: Env, t0: string, t: seq<string>, st: State)
    requires st.f[FMI_CONFIG_FILE] && t0 == "*FMI"
    ensures FmiFile(env, t0, t, st).Ok? <==> |t| >= 2
    ensures var r := FmiFile(env, t0, t, st);
      r.Ok? ==> r.value.v[FMI_CONFIG_FILE] == Name(FMI_CONFIG_FILE) + "=" + t[1] && !r.value.f[FMI_CONFIG_FILE] && r.value.g.fmi == Some(Beside(env, t[1]))
  {
  }

  /** The line after `* Plant` names the plant network file: plant_network is its path
      beside the configuration file (lines 1054-1063). */
  lemma PlantNetworkWrites(env: Env, t0: string, t: seq<string>, st: State)
    requires st.f[PLANT_NETWORK]
    ensures HeadIs(t, "*", "Plant") ==> PlantNetwork(env, t0, t, st).g.plant == 1
    ensures var r := PlantNetwork(env, t0, t, st);
      !HeadIs(t, "*", "Plant") && st.g.plant == 1 ==>
        && r.v[PLANT_NETWORK] == Name(PLANT_NETWORK) + "=" + Beside(env, t0) && !r.f[PLANT_NETWORK]
        && r.g.plantFile == Some(Beside(env, t0)) && r.g.plant == 0
  {
  }

  /** The line after the network file names the zone nodes; the first token of every later
      line is glued onto afn_zone_nodes, which stays looked for (lines 642-652). */
  lemma ZoneNodesWrites(t0: string, st: State)
    requires st.f[AFN_ZONE_NODES] && !st.f[AFN_NETWORK]
    ensures st.g.afn == 2 ==> ZoneNodes(t0, st).g.afn == 3 && ZoneNodes(t0, st).v == st.v
    ensures var r := ZoneNodes(t0, st);
      st.g.afn == 3 ==> r.v[AFN_ZONE_NODES] == Name(AFN_ZONE_NODES) + "=" + t0 && r.f[AFN_ZONE_NODES] && r.g.afn == 4
    ensures var r := ZoneNodes(t0, st);
      st.g.afn > 3 ==> r.v[AFN_ZONE_NODES] == st.v[AFN_ZONE_NODES] + t0 && r.f[AFN_ZONE_NODES] && r.g.afn == st.g.afn
  {
  }
}
