/**
 * esp-query's output bookkeeping: which outputs a request needs, the blanks filled in for
 * outputs a model does not define, and the final report
 * (scripts/common/esp-query/esp-query.py:226-239, 1106-1159).
 *
 * The request is the list of identifiers given on the command line; argparse only admits
 * identifiers from the table, at least one of them.
 */
module EspQuery {
  import opened Wrappers
  import opened PyText
  import opened EspTables

  // ---------------------------------------------------------------- what a request asks for

  /** The outputs shown: those the request names. */
  function DisplayOf(request: seq<string>): (d: seq<bool>)
    ensures |d| == COUNT
    ensures forall i :: 0 <= i < COUNT ==> (d[i] <==> Name(i) in request)
  {
    seq(COUNT, i requires 0 <= i < COUNT => Name(i) in request)
  }

  /** Output `i` is a prerequisite listed for some requested output. */
  predicate NeededBy(request: seq<string>, i: nat) {
    exists j :: 0 <= j < COUNT && Name(j) in request && i in NEEDS[j]
  }

  /** The outputs looked for: the requested ones and their listed prerequisites. */
  function WantedOf(request: seq<string>): (w: seq<bool>)
    ensures |w| == COUNT
    ensures forall i :: 0 <= i < COUNT ==> (w[i] <==> Name(i) in request || NeededBy(request, i))
  {
    seq(COUNT, i requires 0 <= i < COUNT => Name(i) in request || NeededBy(request, i))
  }

  /** Where each shown output goes in the report: the first position of its identifier in
      the request; 0 for outputs not shown. */
  function OrderOf(request: seq<string>): (o: seq<int>)
    ensures |o| == COUNT
    ensures forall i :: 0 <= i < COUNT && Name(i) in request ==>
      0 <= o[i] < |request| && request[o[i]] == Name(i) && Name(i) !in request[..o[i]]
    ensures forall i :: 0 <= i < COUNT && Name(i) !in request ==> o[i] == 0
  {
    seq(COUNT, i requires 0 <= i < COUNT => if Name(i) in request then IndexOf(request, Name(i)) else 0)
  }

  /** A shown output is always looked for. */
  lemma DisplayedAreWanted(request: seq<string>, i: nat)
    requires i < COUNT && DisplayOf(request)[i]
    ensures WantedOf(request)[i]
  {
  }

  // ---------------------------------------------------------------- addBlank on values

  /** addBlank(i, entry) (scripts/common/esp-query/esp-query.py:1109-1112): an output still
      looked for is given the entry `entry` and is no longer looked for. */
  function Blank(f: seq<bool>, v: seq<string>, i: nat, entry: string): (r: (seq<bool>, seq<string>))
    requires i < |f| == |v| == COUNT
    ensures |r.0| == |r.1| == COUNT
    ensures f[i] ==> r == (f[i := false], v[i := Name(i) + "=" + entry])
    ensures !f[i] ==> r == (f, v)
  {
    if f[i] then (f[i := false], v[i := Name(i) + "=" + entry]) else (f, v)
  }

  /** A second addBlank of the same output changes nothing, whatever its entry. */
  lemma BlankIdempotent(f: seq<bool>, v: seq<string>, i: nat, entry: string, entry2: string)
    requires i < |f| == |v| == COUNT
    ensures var r := Blank(f, v, i, entry); Blank(r.0, r.1, i, entry2) == r
  {
  }

  /** Every pair of `list` names an output. */
  predicate BlankList(list: seq<(nat, string)>) {
    forall k :: 0 <= k < |list| ==> list[k].0 < COUNT
  }

  /** addBlank applied for each (output, entry) pair of `list`, in order. */
  function BlankAll(f: seq<bool>, v: seq<string>, list: seq<(nat, string)>): (r: (seq<bool>, seq<string>))
    requires |f| == |v| == COUNT
    requires BlankList(list)
    ensures |r.0| == |r.1| == COUNT
  {
    if list == [] then (f, v)
    else
      var s := BlankAll(f, v, list[..|list| - 1]);
      Blank(s.0, s.1, list[|list| - 1].0, list[|list| - 1].1)
  }

  /** Output `i` is blanked by an entry of `list`. */
  predicate Listed(i: nat, list: seq<(nat, string)>) {
    exists k :: 0 <= k < |list| && list[k].0 == i
  }

  /** The entry the first pair for `i` in `list` gives it. */
  function EntryFor(i: nat, list: seq<(nat, string)>): string
    requires Listed(i, list)
  {
    if list[0].0 == i then list[0].1 else EntryFor(i, list[1..])
  }

  /** After a run of addBlank calls, an output is looked for exactly when it was before and
      no call named it; the ones the run stopped looking for hold their blank entry, and
      every other value is unchanged. */
  lemma {:induction false} BlankAllMeaning(f: seq<bool>, v: seq<string>, list: seq<(nat, string)>, i: nat)
    requires |f| == |v| == COUNT && i < COUNT
    requires BlankList(list)
    ensures var r := BlankAll(f, v, list);
      && (r.0[i] <==> f[i] && !Listed(i, list))
      && r.1[i] == if f[i] && Listed(i, list) then Name(i) + "=" + EntryFor(i, list) else v[i]
  {
    if list != [] {
      var init, last := list[..|list| - 1], list[|list| - 1];
      assert list == init + [last];
      BlankAllMeaning(f, v, init, i);
      ListedSnoc(i, init, last);
      if Listed(i, init) {
        EntryForPrefix(i, init, last);
      } else if last.0 == i {
        EntryForLast(i, init, last);
      }
    }
  }

  lemma ListedSnoc(i: nat, init: seq<(nat, string)>, last: (nat, string))
    ensures Listed(i, init + [last]) <==> Listed(i, init) || last.0 == i
  {
    var list := init + [last];
    if Listed(i, list) {
      var k :| 0 <= k < |list| && list[k].0 == i;
      if k < |init| {
        assert init[k] == list[k];
      }
    }
    if Listed(i, init) {
      var k :| 0 <= k < |init| && init[k].0 == i;
      assert list[k] == init[k];
    }
    if last.0 == i {
      assert list[|init|] == last;
    }
  }

  lemma {:induction false} EntryForPrefix(i: nat, init: seq<(nat, string)>, last: (nat, string))
    requires Listed(i, init)
    ensures Listed(i, init + [last]) && EntryFor(i, init + [last]) == EntryFor(i, init)
  {
    var list := init + [last];
    var k :| 0 <= k < |init| && init[k].0 == i;
    assert list[k] == init[k];
    if init[0].0 != i {
      assert list[1..] == init[1..] + [last];
      assert k > 0 && init[1..][k - 1] == init[k];
      EntryForPrefix(i, init[1..], last);
    }
  }

  lemma {:induction false} EntryForLast(i: nat, init: seq<(nat, string)>, last: (nat, string))
    requires !Listed(i, init) && last.0 == i
    ensures Listed(i, init + [last]) && EntryFor(i, init + [last]) == last.1
  {
    var list := init + [last];
    assert list[|init|] == last;
    if init != [] {
      assert init[0].0 != i;
      assert list[1..] == init[1..] + [last];
      EntryForLast(i, init[1..], last);
    }
  }

  /** The first blanks (scripts/common/esp-query/esp-query.py:1114-1115). */
  const EARLY_BLANKS: seq<(nat, string)> := [(CTM_NETWORK, ""), (NUMBER_CTM, "")]

  /** The blanks after zone_setpoints (scripts/common/esp-query/esp-query.py:1125-1142). */
  const LATE_BLANKS: seq<(nat, string)> := [
    (ZONE_CONTROL, "0"), (TDFA_FILE, ""), (TDFA_TIMESTEP, ""), (TDFA_STARTDAY, ""),
    (TDFA_ENDDAY, ""), (TDFA_ENTITIES, ""), (UNCERTAINTIES_FILE, ""), (NUMBER_PRESETS, "0"),
    (QA_REPORT, ""), (TOTAL_FLOOR_AREA, ""), (TOTAL_VOLUME, ""), (ZONE_VOLUMES, ""),
    (FMI_CONFIG_FILE, ""), (FMU_NAMES, ""), (IS_BUILDING, "0"), (PLANT_NETWORK, ""),
    (PLANT_COMPONENTS, ""), (PLANT_COMP_NAMES, "")]

  /** The air flow network outputs (scripts/common/esp-query/esp-query.py:1116-1122): nothing
      found for afn_zone_nodes blanks both, and a partial value found is kept. */
  function AfnBlanks(f: seq<bool>, v: seq<string>): (r: (seq<bool>, seq<string>))
    requires |f| == |v| == COUNT
    ensures |r.0| == |r.1| == COUNT
  {
    if !f[AFN_ZONE_NODES] then (f, v)
    else if v[AFN_ZONE_NODES] == "" then
      var t := Blank(f, v, AFN_ZONE_NODES, "");
      Blank(t.0, t.1, AFN_ZON_NOD_NUMS, "")
    else (f[AFN_ZONE_NODES := false][AFN_ZON_NOD_NUMS := false], v)
  }

  /** zone_setpoints is blanked only for a model without zone control
      (scripts/common/esp-query/esp-query.py:1124). */
  function ControlBlank(f: seq<bool>, v: seq<string>): (r: (seq<bool>, seq<string>))
    requires |f| == |v| == COUNT
    ensures |r.0| == |r.1| == COUNT
  {
    if f[ZONE_CONTROL] then Blank(f, v, ZONE_SETPOINTS, "") else (f, v)
  }

  /** The blanks filled in after the scan (scripts/common/esp-query/esp-query.py:1114-1142). */
  function Blanks(f: seq<bool>, v: seq<string>): (r: (seq<bool>, seq<string>))
    requires |f| == |v| == COUNT
    ensures |r.0| == |r.1| == COUNT
  {
    var s := BlankAll(f, v, EARLY_BLANKS);
    var s := AfnBlanks(s.0, s.1);
    var s := ControlBlank(s.0, s.1);
    BlankAll(s.0, s.1, LATE_BLANKS)
  }

  lemma BlankListsShape()
    ensures BlankList(EARLY_BLANKS) && BlankList(LATE_BLANKS)
  {
  }

  /** The four runs of blanks, one after the other. */
  lemma BlanksInTurn(s0: (seq<bool>, seq<string>), s1: (seq<bool>, seq<string>),
                     s2: (seq<bool>, seq<string>), s3: (seq<bool>, seq<string>))
    requires |s0.0| == |s0.1| == COUNT
    requires s1 == BlankAll(s0.0, s0.1, EARLY_BLANKS)
    requires s2 == AfnBlanks(s1.0, s1.1)
    requires s3 == ControlBlank(s2.0, s2.1)
    ensures Blanks(s0.0, s0.1) == BlankAll(s3.0, s3.1, LATE_BLANKS)
  {
  }

  /** The outputs a model must define: when one of them is not found, no blank stands in. */
  predicate Mandatory(i: nat) {
    i in {MODEL_NAME, NUMBER_ZONES, CFD_DOMAINS, MODEL_DESCRIPTION, ZONE_NAMES, MRT_SENSORS,
          ZONE_FLOOR_SURFS, RAD_VIEWPOINTS, RAD_SCENE, ZONE_WIN_SURFS, AFN_NETWORK,
          CFD_CONTAMINANTS, CFD_DOMAIN_FILES, MRT_SENSOR_NAMES, WEATHER_FILE, NUMBER_TOILETS,
          NUMBER_URINALS, NUMBER_SHOWERS, NUMBER_PRINTERS, NUMBER_PHOTOCOPY}
  }

  lemma LateListed(i: nat)
    requires i < COUNT
    ensures Listed(i, LATE_BLANKS) <==> i == 16 || 20 <= i <= 26 || 28 <= i <= 33 || 39 <= i <= 42
  {
    if i == 16 || 20 <= i <= 26 || 28 <= i <= 33 || 39 <= i <= 42 {
      var k := if i == 16 then 0 else if i <= 26 then i - 19 else if i <= 33 then i - 20 else i - 25;
      assert LATE_BLANKS[k].0 == i;
    }
  }

  lemma EarlyListed(i: nat)
    requires i < COUNT
    ensures Listed(i, EARLY_BLANKS) <==> i == 12 || i == 13
  {
    if i == 12 || i == 13 {
      assert EARLY_BLANKS[i - 12].0 == i;
    }
  }

  lemma EarlyFlags(f: seq<bool>, v: seq<string>, i: nat)
    requires |f| == |v| == COUNT && i < COUNT
    ensures BlankAll(f, v, EARLY_BLANKS).0[i] <==> f[i] && i != CTM_NETWORK && i != NUMBER_CTM
  {
    BlankListsShape();
    BlankAllMeaning(f, v, EARLY_BLANKS, i);
    EarlyListed(i);
  }

  lemma AfnFlags(f: seq<bool>, v: seq<string>, i: nat)
    requires |f| == |v| == COUNT && i < COUNT
    ensures AfnBlanks(f, v).0[i] <==>
      f[i] && !(f[AFN_ZONE_NODES] && (i == AFN_ZONE_NODES || i == AFN_ZON_NOD_NUMS))
  {
  }

  lemma ControlFlags(f: seq<bool>, v: seq<string>, i: nat)
    requires |f| == |v| == COUNT && i < COUNT
    ensures ControlBlank(f, v).0[i] <==> f[i] && !(f[ZONE_CONTROL] && i == ZONE_SETPOINTS)
  {
  }

  lemma LateFlags(f: seq<bool>, v: seq<string>, i: nat)
    requires |f| == |v| == COUNT && i < COUNT
    ensures BlankAll(f, v, LATE_BLANKS).0[i] <==>
      f[i] && !(i == 16 || 20 <= i <= 26 || 28 <= i <= 33 || 39 <= i <= 42)
  {
    BlankListsShape();
    BlankAllMeaning(f, v, LATE_BLANKS, i);
    LateListed(i);
  }

  /** After the blanks, an output is still looked for exactly when it was before and it is
      mandatory, or it is zone_setpoints of a model whose zone control was found, or it is
      afn_zon_nod_nums of a model whose afn_zone_nodes was already found. */
  lemma BlanksLeaveMandatory(f: seq<bool>, v: seq<string>, i: nat)
    requires |f| == |v| == COUNT && i < COUNT
    ensures Blanks(f, v).0[i] <==>
      f[i] && (Mandatory(i) || (i == ZONE_SETPOINTS && !f[ZONE_CONTROL])
               || (i == AFN_ZON_NOD_NUMS && !f[AFN_ZONE_NODES]))
  {
    BlankListsShape();
    var s1 := BlankAll(f, v, EARLY_BLANKS);
    var s2 := AfnBlanks(s1.0, s1.1);
    var s3 := ControlBlank(s2.0, s2.1);
    EarlyFlags(f, v, i);
    EarlyFlags(f, v, ZONE_CONTROL);
    EarlyFlags(f, v, AFN_ZONE_NODES);
    AfnFlags(s1.0, s1.1, i);
    AfnFlags(s1.0, s1.1, ZONE_CONTROL);
    ControlFlags(s2.0, s2.1, i);
    LateFlags(s3.0, s3.1, i);
  }

  /** When afn_zone_nodes is still looked for after the scan but its value is partial, the
      blanks keep that value and stop looking for both network outputs. */
  lemma BlanksKeepPartialNodes(f: seq<bool>, v: seq<string>)
    requires |f| == |v| == COUNT
    requires f[AFN_ZONE_NODES] && v[AFN_ZONE_NODES] != ""
    ensures var r := Blanks(f, v);
      r.1[AFN_ZONE_NODES] == v[AFN_ZONE_NODES] && !r.0[AFN_ZONE_NODES] && !r.0[AFN_ZON_NOD_NUMS]
  {
    BlankListsShape();
    BlankAllMeaning(f, v, EARLY_BLANKS, AFN_ZONE_NODES);
    EarlyListed(AFN_ZONE_NODES);
    var s1 := BlankAll(f, v, EARLY_BLANKS);
    var s3 := ControlBlank(AfnBlanks(s1.0, s1.1).0, AfnBlanks(s1.0, s1.1).1);
    BlankAllMeaning(s3.0, s3.1, LATE_BLANKS, AFN_ZONE_NODES);
    BlankAllMeaning(s3.0, s3.1, LATE_BLANKS, AFN_ZON_NOD_NUMS);
    LateListed(AFN_ZONE_NODES);
    LateListed(AFN_ZON_NOD_NUMS);
  }

  // ---------------------------------------------------------------- the report on values

  /** The indices of the outputs still looked for, ascending. */
  function Flagged(f: seq<bool>, from: nat): (idx: seq<nat>)
    requires from <= |f|
    ensures forall k :: 0 <= k < |idx| ==> from <= idx[k] < |f| && f[idx[k]]
    ensures forall i :: from <= i < |f| && f[i] ==> i in idx
    ensures forall k, l :: 0 <= k < l < |idx| ==> idx[k] < idx[l]
    decreases |f| - from
  {
    if from == |f| then []
    else if f[from] then [from] + Flagged(f, from + 1)
    else Flagged(f, from + 1)
  }

  /** The names listed on the error path (scripts/common/esp-query/esp-query.py:1145-1150). */
  function MissingNames(f: seq<bool>): (names: seq<string>)
    requires |f| == COUNT
  {
    var idx := Flagged(f, 0);
    seq(|idx|, k requires 0 <= k < |idx| => Name(idx[k]))
  }

  /** The report slots, filled for the first `n` outputs (scripts/common/esp-query/esp-query.py:1153-1155). */
  function Slots(size: nat, d: seq<bool>, o: seq<int>, v: seq<string>, n: nat): (s: seq<string>)
    requires n <= |d| == |o| == |v|
    requires forall i :: 0 <= i < n && d[i] ==> 0 <= o[i] < size
    ensures |s| == size
  {
    if n == 0 then seq(size, _ => "")
    else
      var s := Slots(size, d, o, v, n - 1);
      if d[n - 1] then s[o[n - 1] := v[n - 1]] else s
  }

  /** The last output below `n` whose identifier is `name`. */
  function LastNamed(name: string, n: nat): (r: Option<nat>)
    requires n <= COUNT
    ensures r.Some? ==> r.value < n && Name(r.value) == name
    ensures r.None? ==> forall i :: 0 <= i < n ==> Name(i) != name
  {
    if n == 0 then None
    else if Name(n - 1) == name then Some(n - 1)
    else LastNamed(name, n - 1)
  }

  /** Slot `k` of the report holds the value of the output named by `request[k]` when that is
      the identifier's first position in the request, and stays empty otherwise. */
  lemma {:induction false} SlotsMeaning(request: seq<string>, v: seq<string>, n: nat, k: nat)
    requires n <= COUNT && |v| == COUNT && k < |request|
    ensures var s := Slots(|request|, DisplayOf(request), OrderOf(request), v, n);
      var w := LastNamed(request[k], n);
      s[k] == if w.Some? && request[k] !in request[..k] then v[w.value] else ""
  {
    if n > 0 {
      SlotsMeaning(request, v, n - 1, k);
      var i := n - 1;
      if Name(i) in request {
        var o := OrderOf(request);
        FirstOccurrence(request, Name(i), o[i], k);
      }
    }
  }

  /** Position `j` holds the first `x` of `request`, so `k` does exactly when `k` is `j`. */
  lemma FirstOccurrence(request: seq<string>, x: string, j: nat, k: nat)
    requires j < |request| && k < |request| && request[j] == x && x !in request[..j]
    ensures j == k <==> request[k] == x && x !in request[..k]
  {
    if k < j {
      assert request[..j][k] == request[k];
    } else if j < k {
      assert request[..k][j] == request[j];
    }
  }

  /** Output `t` is listed as a prerequisite of a requested output below `i`. */
  predicate NeededBefore(request: seq<string>, t: nat, i: nat) {
    exists j :: 0 <= j < i && j < COUNT && Name(j) in request && t in NEEDS[j]
  }

  lemma NeededStep(request: seq<string>, i: nat)
    requires i < COUNT
    ensures forall t :: NeededBefore(request, t, i + 1) <==>
      NeededBefore(request, t, i) || (Name(i) in request && t in NEEDS[i])
  {
  }

  /** `f` with the flag of every output in `needs` raised. */
  function Raised(f: seq<bool>, needs: seq<nat>): (r: seq<bool>)
    ensures |r| == |f|
    ensures forall t :: 0 <= t < |f| ==> (r[t] <==> f[t] || t in needs)
  {
    seq(|f|, t requires 0 <= t < |f| => f[t] || t in needs)
  }

  /** Raises the flag of every output in `needs` (the loop over lli_needs[i]). */
  method RaiseAll(f: array<bool>, needs: seq<nat>)
    requires forall k :: 0 <= k < |needs| ==> needs[k] < f.Length
    modifies f
    ensures f[..] == Raised(old(f[..]), needs)
  {
    for k := 0 to |needs|
      invariant forall t :: 0 <= t < f.Length ==> (f[t] <==> old(f[t]) || t in needs[..k])
    {
      f[needs[k]] := true;
      assert needs[..k + 1] == needs[..k] + [needs[k]];
    }
    assert needs[..|needs|] == needs;
  }

  /** The marks, positions and flags once the identifiers below `i` have been looked at. */
  predicate MarkedUpTo(request: seq<string>, d: seq<bool>, o: seq<int>, f: seq<bool>, i: nat) {
    && |d| == |o| == |f| == COUNT
    && (forall t :: 0 <= t < COUNT ==> (d[t] <==> t < i && Name(t) in request))
    && (forall t :: 0 <= t < COUNT ==>
          o[t] == if t < i && Name(t) in request then IndexOf(request, Name(t)) else 0)
    && (forall t :: 0 <= t < COUNT ==>
          (f[t] <==> (t < i && Name(t) in request) || NeededBefore(request, t, i)))
  }

  /** One turn of the setup loop, on values. */
  function MarkOne(request: seq<string>, d: seq<bool>, o: seq<int>, f: seq<bool>, i: nat):
    (r: (seq<bool>, seq<int>, seq<bool>))
    requires |d| == |o| == |f| == COUNT && i < COUNT
  {
    if Name(i) in request then
      (d[i := true], o[i := IndexOf(request, Name(i))], Raised(f[i := true], NEEDS[i]))
    else (d, o, f)
  }

  lemma MarkOneStep(request: seq<string>, d: seq<bool>, o: seq<int>, f: seq<bool>, i: nat)
    requires i < COUNT && MarkedUpTo(request, d, o, f, i)
    ensures var r := MarkOne(request, d, o, f, i); MarkedUpTo(request, r.0, r.1, r.2, i + 1)
  {
    NeededStep(request, i);
  }

  lemma MarkedAll(request: seq<string>, d: seq<bool>, o: seq<int>, f: seq<bool>)
    requires MarkedUpTo(request, d, o, f, COUNT)
    ensures d == DisplayOf(request) && o == OrderOf(request) && f == WantedOf(request)
  {
    assert forall t :: 0 <= t < COUNT ==> NeededBefore(request, t, COUNT) == NeededBy(request, t);
  }

  /** The loop over the identifiers that marks the requested outputs, their prerequisites
      and the report positions (scripts/common/esp-query/esp-query.py:226-237). */
  method MarkOutputs(request: seq<string>) returns (f: array<bool>, d: array<bool>, o: array<int>)
    ensures fresh(f) && fresh(d) && fresh(o) && f != d
    ensures f[..] == WantedOf(request) && d[..] == DisplayOf(request) && o[..] == OrderOf(request)
  {
    TablesShape();
    f := new bool[COUNT](_ => false);
    d := new bool[COUNT](_ => false);
    o := new int[COUNT](_ => 0);
    for i := 0 to COUNT
      invariant MarkedUpTo(request, d[..], o[..], f[..], i)
    {
      ghost var before := (d[..], o[..], f[..]);
      MarkIdentifier(request, f, d, o, i);
      MarkOneStep(request, before.0, before.1, before.2, i);
    }
    MarkedAll(request, d[..], o[..], f[..]);
  }

  /** One turn of the setup loop: a requested identifier is marked shown and looked for,
      its prerequisites are looked for, and its report position is recorded. */
  method MarkIdentifier(request: seq<string>, f: array<bool>, d: array<bool>, o: array<int>, i: nat)
    requires f.Length == d.Length == o.Length == COUNT && i < COUNT && f != d
    requires forall k :: 0 <= k < |NEEDS[i]| ==> NEEDS[i][k] < COUNT
    modifies f, d, o
    ensures (d[..], o[..], f[..]) == MarkOne(request, old(d[..]), old(o[..]), old(f[..]), i)
  {
    if Name(i) in request {
      f[i] := true;
      d[i] := true;
      RaiseAll(f, NEEDS[i]);
      o[i] := IndexOf(request, Name(i));
    }
  }

  datatype Response =
    | Missing(names: seq<string>)   // the error path: these outputs could not be retrieved
    | Report(text: string)          // the outputs, in the order requested

  // ---------------------------------------------------------------- the arrays

  /** Copies two lists into the two arrays, element by element. */
  method CopyLists(flags: array<bool>, vals: array<string>, f: seq<bool>, v: seq<string>)
    requires flags.Length == |f| && vals.Length == |v| == |f|
    modifies flags, vals
    ensures flags[..] == f && vals[..] == v
  {
    for i := 0 to |f|
      invariant forall j :: 0 <= j < i ==> flags[j] == f[j] && vals[j] == v[j]
      invariant forall j :: i <= j < |f| ==> flags[j] == old(flags[j]) && vals[j] == old(vals[j])
    {
      flags[i] := f[i];
      vals[i] := v[i];
    }
    assert flags[..] == f && vals[..] == v;
  }

  class Query {
    const request: seq<string>
    /** lb_outputs: the outputs still looked for. */
    const flags: array<bool>
    /** lb_display: the outputs requested. */
    const display: array<bool>
    /** li_order: the report position of each requested output. */
    const order: array<int>
    /** ls_outputVals: the text found for each output. */
    const vals: array<string>
    /** The outputs looked for right after setup. */
    ghost const wanted: seq<bool>

    ghost predicate Valid()
      reads this, flags, display, order, vals
    {
      && flags.Length == display.Length == order.Length == vals.Length == COUNT
      && flags != display
      && display[..] == DisplayOf(request)
      && order[..] == OrderOf(request)
      && wanted == WantedOf(request)
      && (forall i :: 0 <= i < COUNT && flags[i] ==> wanted[i])
      && (forall i :: 0 <= i < COUNT && !wanted[i] ==> vals[i] == "")
    }

    /** The setup of the flags, the display marks, the order and the values
        (scripts/common/esp-query/esp-query.py:226-239). */
    constructor (request: seq<string>)
      ensures Valid() && this.request == request
      ensures flags[..] == WantedOf(request)
      ensures vals[..] == seq(COUNT, _ => "")
      ensures fresh(flags) && fresh(display) && fresh(order) && fresh(vals)
    {
      this.request := request;
      wanted := WantedOf(request);
      var f, d, o := MarkOutputs(request);
      flags := f;
      display := d;
      order := o;
      vals := new string[COUNT](_ => "");
    }

    /** Records the value of output `i`, which is looked for, and stops looking for it. */
    method Record(i: nat, value: string)
      requires Valid() && i < COUNT && flags[i]
      modifies flags, vals
      ensures Valid()
      ensures flags[..] == old(flags[..])[i := false] && vals[..] == old(vals[..])[i := value]
    {
      flags[i] := false;
      vals[i] := value;
    }

    /** Replaces the value of output `i`, which is looked for, and keeps looking for it. */
    method Update(i: nat, value: string)
      requires Valid() && i < COUNT && flags[i]
      modifies vals
      ensures Valid()
      ensures vals[..] == old(vals[..])[i := value]
    {
      vals[i] := value;
    }

    /** Stops looking for output `i`. */
    method Clear(i: nat)
      requires Valid() && i < COUNT
      modifies flags
      ensures Valid()
      ensures flags[..] == old(flags[..])[i := false]
    {
      flags[i] := false;
    }

    /** Stores what the scan of a line leaves in the two lists: flags only fall, and only
        the values of outputs looked for change. */
    method Store(f: seq<bool>, v: seq<string>)
      requires Valid() && |f| == |v| == COUNT
      requires forall i :: 0 <= i < COUNT ==> (f[i] ==> flags[i]) && (flags[i] || v[i] == vals[i])
      modifies flags, vals
      ensures Valid()
      ensures flags[..] == f && vals[..] == v
    {
      CopyLists(flags, vals, f, v);
    }

    /** addBlank (scripts/common/esp-query/esp-query.py:1109-1112). */
    method AddBlank(i: nat, entry: string)
      requires Valid() && i < COUNT
      modifies flags, vals
      ensures Valid()
      ensures (flags[..], vals[..]) == Blank(old(flags[..]), old(vals[..]), i, entry)
    {
      if flags[i] {
        vals[i] := Name(i) + "=" + entry;
        flags[i] := false;
      }
    }

    /** The run of addBlank calls for `list`. */
    method AddBlanks(list: seq<(nat, string)>)
      requires Valid() && BlankList(list)
      modifies flags, vals
      ensures Valid()
      ensures (flags[..], vals[..]) == BlankAll(old(flags[..]), old(vals[..]), list)
    {
      for k := 0 to |list|
        invariant Valid()
        invariant (flags[..], vals[..]) == BlankAll(old(flags[..]), old(vals[..]), list[..k])
      {
        assert list[..k + 1][..k] == list[..k];
        AddBlank(list[k].0, list[k].1);
      }
      assert list[..|list|] == list;
    }

    /** The air flow network blanks (scripts/common/esp-query/esp-query.py:1116-1122). */
    method AddAfnBlanks()
      requires Valid()
      modifies flags, vals
      ensures Valid()
      ensures (flags[..], vals[..]) == AfnBlanks(old(flags[..]), old(vals[..]))
    {
      if flags[AFN_ZONE_NODES] {
        if vals[AFN_ZONE_NODES] == "" {
          AddBlank(AFN_ZONE_NODES, "");
          AddBlank(AFN_ZON_NOD_NUMS, "");
        } else {
          Clear(AFN_ZONE_NODES);
          Clear(AFN_ZON_NOD_NUMS);
        }
      }
    }

    /** zone_setpoints is blanked for a model without zone control
        (scripts/common/esp-query/esp-query.py:1124). */
    method AddControlBlank()
      requires Valid()
      modifies flags, vals
      ensures Valid()
      ensures (flags[..], vals[..]) == ControlBlank(old(flags[..]), old(vals[..]))
    {
      if flags[ZONE_CONTROL] {
        AddBlank(ZONE_SETPOINTS, "");
      }
    }

    /** The blanks filled in after the scan (scripts/common/esp-query/esp-query.py:1114-1142). */
    method FillBlanks()
      requires Valid()
      modifies flags, vals
      ensures Valid()
      ensures (flags[..], vals[..]) == Blanks(old(flags[..]), old(vals[..]))
    {
      ghost var s0 := (flags[..], vals[..]);
      BlankListsShape();
      AddBlanks(EARLY_BLANKS);
      ghost var s1 := (flags[..], vals[..]);
      AddAfnBlanks();
      ghost var s2 := (flags[..], vals[..]);
      AddControlBlank();
      ghost var s3 := (flags[..], vals[..]);
      AddBlanks(LATE_BLANKS);
      BlanksInTurn(s0, s1, s2, s3);
    }

    /** The final report (scripts/common/esp-query/esp-query.py:1144-1159). */
    method Finish() returns (r: Response)
      requires Valid()
      ensures true in flags[..] ==> r == Missing(MissingNames(flags[..]))
      ensures true !in flags[..] ==>
        r == Report(Join("\n\n", Slots(|request|, display[..], order[..], vals[..], COUNT)))
    {
      if true in flags[..] {
        return Missing(MissingNames(flags[..]));
      }
      var text := new string[|request|](_ => "");
      for i := 0 to COUNT
        invariant text[..] == Slots(|request|, display[..], order[..], vals[..], i)
      {
        if display[i] {
          text[order[i]] := vals[i];
        }
      }
      r := Report(Join("\n\n", text[..]));
    }
  }

  /** The error path names exactly the outputs still looked for, in ascending index order. */
  lemma MissingNamesAscending(f: seq<bool>)
    requires |f| == COUNT
    ensures var idx := Flagged(f, 0);
      && MissingNames(f) == seq(|idx|, k requires 0 <= k < |idx| => Name(idx[k]))
      && (forall i :: 0 <= i < COUNT ==> (f[i] <==> i in idx))
      && (forall k, l :: 0 <= k < l < |idx| ==> idx[k] < idx[l])
      && (idx == [] <==> true !in f)
  {
    var idx := Flagged(f, 0);
    if true in f {
      var i :| 0 <= i < COUNT && f[i];
      assert i in idx;
    }
    if idx != [] {
      assert f[idx[0]];
      assert f[idx[0]] in f;
    }
  }
}
