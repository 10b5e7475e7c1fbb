/**
 * The network files esp-query reads: the air flow network for the node numbers of the zones
 * (scripts/common/esp-query/esp-query.py:656-694) and the plant network for the plant
 * components (scripts/common/esp-query/esp-query.py:1050-1098).
 */
module EspNetworks {
  import opened Wrappers
  import opened PyText
  import opened EspLines

  // ---------------------------------------------------------------- AFN zone node numbers (lines 656-694)

  /** The header of the node table of an air flow network of type 1. */
  const AFN_HEADER := " Node         Fld. Type   Height    Temperature    Data_1       Data_2"

  /** The loop variables: the number of the current node, the numbers found so far (one per
      zone node, "0" until found) and the zone nodes still to find (ls_afnNods_tmp). */
  datatype Nodes = Nodes(node: int, nums: seq<string>, pending: seq<string>)

  /** `ls.index(x)` for a name of the list, and past its end otherwise (it always is one). */
  function Slot(names: seq<string>, x: string): (i: nat)
    ensures x in names ==> i < |names| && names[i] == x
  {
    if x in names then IndexOf(names, x) else |names|
  }

  /** `nums[i] = v` for an index of the list, and no change otherwise. */
  function Assign(nums: seq<string>, i: nat, v: string): (r: seq<string>)
    ensures |r| == |nums|
    ensures i < |nums| ==> r == nums[i := v]
  {
    if i < |nums| then nums[i := v] else nums
  }

  /** A node named `x`: a zone node not yet found gets the current node number; the loop breaks
      once every zone node has one, and otherwise goes on to the next node. */
  function NodeFound(names: seq<string>, st: Nodes, x: string): (Nodes, bool) {
    if x in st.pending then
      var nums := Assign(st.nums, Slot(names, x), IntToString(st.node));
      var pending := RemoveFirst(st.pending, x);
      if pending == [] then (Nodes(st.node, nums, pending), true)
      else (Nodes(st.node + 1, nums, pending), false)
    else (st.(node := st.node + 1), false)
  }

  /** A line of a network of type 1: the table header starts the numbering, and each line after
      it is a node named by its first token. */
  function TableLine(header: string, names: seq<string>, line: string, st: Nodes): Res<(Nodes, bool)> {
    if PySlice(line, 0, 70) == header then Ok((st.(node := 1), false))
    else if st.node != 0 then
      var x :- At(Tokens(line), 0);
      Ok(NodeFound(names, st, x))
    else Ok((st, false))
  }

  /** A line of a network of type 3: each `*node` line is a node named by its second field. */
  function NodeLine(names: seq<string>, line: string, st: Nodes): Res<(Nodes, bool)> {
    if StartsWith(line, "*node") then
      var x :- At(SplitOn(Strip(line), ','), 1);
      Ok(NodeFound(names, st, x))
    else Ok((st, false))
  }

  /** One "0" per zone node. */
  function Zeros(n: nat): (z: seq<string>)
    ensures |z| == n && forall i :: 0 <= i < n ==> z[i] == "0"
  {
    seq(n, _ => "0")
  }

  /** The node numbers of the zone nodes `names` in an air flow network of type `afnType`, or
      None when the network does not hold them all (afn_zon_nod_nums is then not written). */
  function AfnNodeNumbers(lines: seq<string>, afnType: int, names: seq<string>): Res<Option<seq<string>>> {
    if afnType == 1 then
      var (st, broke) :- Steps((l, s) => TableLine(AFN_HEADER, names, l, s), lines, 0, Nodes(0, Zeros(|names|), names));
      Ok(if broke then Some(st.nums) else None)
    else if afnType == 3 then
      var (st, broke) :- Steps((l, s) => NodeLine(names, l, s), lines, 0, Nodes(1, Zeros(|names|), names));
      Ok(if broke then Some(st.nums) else None)
    else Ok(None)
  }

  /** No name occurs twice. */
  predicate Distinct(names: seq<string>) {
    forall i, j :: 0 <= i < j < |names| ==> names[i] != names[j]
  }

  /** What the loops keep: one number per zone node, every zone node still to find is one of
      them, and a zone node no longer to find has a number other than "0". */
  predicate NodesInv(names: seq<string>, lo: int, st: Nodes) {
    && |st.nums| == |names|
    && st.node >= lo
    && (forall x :: x in st.pending ==> x in names)
    && (forall i :: 0 <= i < |names| ==> names[i] in st.pending || st.nums[i] != "0")
  }

  /** Removing one occurrence of `x` keeps every other element. */
  lemma RemoveFirstKeeps(s: seq<string>, x: string, y: string)
    requires x in s && y in s && y != x
    ensures y in RemoveFirst(s, x)
  {
    var i := IndexOf(s, x);
    var j :| 0 <= j < |s| && s[j] == y;
    if j < i {
      assert RemoveFirst(s, x)[j] == y;
    } else {
      assert RemoveFirst(s, x)[j - 1] == y;
    }
  }

  /** The number of a node is never "0". */
  lemma NodeNumberNotZero(n: int)
    requires n >= 1
    ensures IntToString(n) != "0"
  {
    assert IntToString(0) == "0";
    if IntToString(n) == "0" {
      IntToStringInjective(n, 0);
    }
  }

  /** A node keeps the invariant, for distinct zone nodes. */
  lemma NodeFoundKeeps(names: seq<string>, lo: int, st: Nodes, x: string)
    requires Distinct(names) && NodesInv(names, lo, st) && st.node >= 1
    ensures NodesInv(names, lo, NodeFound(names, st, x).0)
  {
    if x in st.pending {
      var i0 := Slot(names, x);
      var nums := Assign(st.nums, i0, IntToString(st.node));
      var pending := RemoveFirst(st.pending, x);
      NodeNumberNotZero(st.node);
      forall y | y in pending ensures y in names {
        RemoveFirstSubset(st.pending, x, y);
      }
      forall i | 0 <= i < |names| ensures names[i] in pending || nums[i] != "0" {
        if i != i0 {
          assert names[i] != x;
          if names[i] in st.pending {
            RemoveFirstKeeps(st.pending, x, names[i]);
          }
        }
      }
    }
  }

  /** Every line of a type 1 network keeps the invariant, and one that breaks the loop leaves
      no zone node to find. */
  lemma TableLineKeeps(names: seq<string>, line: string, st: Nodes)
    requires Distinct(names) && NodesInv(names, 0, st) && TableLine(AFN_HEADER, names, line, st).Ok?
    ensures NodesInv(names, 0, TableLine(AFN_HEADER, names, line, st).value.0)
  {
    if PySlice(line, 0, 70) != AFN_HEADER && st.node != 0 {
      NodeFoundKeeps(names, 0, st, Tokens(line)[0]);
    }
  }

  /** Every line of a type 3 network keeps the invariant. */
  lemma NodeLineKeeps(names: seq<string>, line: string, st: Nodes)
    requires Distinct(names) && NodesInv(names, 1, st) && NodeLine(names, line, st).Ok?
    ensures NodesInv(names, 1, NodeLine(names, line, st).value.0)
  {
    if StartsWith(line, "*node") {
      NodeFoundKeeps(names, 1, st, SplitOn(Strip(line), ',')[1]);
    }
  }

  /** A loop over nodes whose every pass keeps the invariant and breaks only when no zone node
      is left to find gives, when it breaks, a number other than "0" to every zone node. */
  lemma StepsFindAll(step: (string, Nodes) -> Res<(Nodes, bool)>, names: seq<string>, lo: int,
                     lines: seq<string>, init: Nodes)
    requires NodesInv(names, lo, init)
    requires forall l, s :: NodesInv(names, lo, s) && step(l, s).Ok? ==> NodesInv(names, lo, step(l, s).value.0)
    requires forall l, s :: step(l, s).Ok? && step(l, s).value.1 ==> step(l, s).value.0.pending == []
    ensures var r := Steps(step, lines, 0, init);
      r.Ok? && r.value.1 ==> |r.value.0.nums| == |names| && forall i :: 0 <= i < |names| ==> r.value.0.nums[i] != "0"
  {
    StepsKeep(step, (s: Nodes) => NodesInv(names, lo, s), lines, 0, init);
    StepsStop(step, (s: Nodes) => s.pending == [], lines, 0, init);
  }

  /** For distinct zone nodes, the numbers written hold one number per zone node and none is
      "0": every zone node was found in the network. */
  lemma AfnNodesAllFound(lines: seq<string>, afnType: int, names: seq<string>)
    requires Distinct(names)
    requires AfnNodeNumbers(lines, afnType, names).Ok? && AfnNodeNumbers(lines, afnType, names).value.Some?
    ensures var nums := AfnNodeNumbers(lines, afnType, names).value.value;
      |nums| == |names| && forall i :: 0 <= i < |nums| ==> nums[i] != "0"
  {
    if afnType == 1 {
      var step := (l, s) => TableLine(AFN_HEADER, names, l, s);
      forall l, s | NodesInv(names, 0, s) && step(l, s).Ok? ensures NodesInv(names, 0, step(l, s).value.0) {
        TableLineKeeps(names, l, s);
      }
      StepsFindAll(step, names, 0, lines, Nodes(0, Zeros(|names|), names));
    } else if afnType == 3 {
      var step := (l, s) => NodeLine(names, l, s);
      forall l, s | NodesInv(names, 1, s) && step(l, s).Ok? ensures NodesInv(names, 1, step(l, s).value.0) {
        NodeLineKeeps(names, l, s);
      }
      StepsFindAll(step, names, 1, lines, Nodes(1, Zeros(|names|), names));
    }
  }

  /** The loop over a network of type 1 (lines 663-677). */
  method ReadTableNodes(lines: seq<string>, names: seq<string>) returns (r: Res<(Nodes, bool)>)
    ensures r == Steps((l, s) => TableLine(AFN_HEADER, names, l, s), lines, 0, Nodes(0, Zeros(|names|), names))
  {
    var node, nums, pending := 0, Zeros(|names|), names;
    ghost var step := (l, s) => TableLine(AFN_HEADER, names, l, s);
    for k := 0 to |lines|
      invariant Steps(step, lines, k, Nodes(node, nums, pending)) == Steps(step, lines, 0, Nodes(0, Zeros(|names|), names))
    {
      var line := lines[k];
      if PySlice(line, 0, 70) == AFN_HEADER {
        node := 1;
      } else if node != 0 {
        var ls := Tokens(line);
        if |ls| == 0 {
          return Fail(Raised(IndexError));
        }
        var found := NodeFound(names, Nodes(node, nums, pending), ls[0]);
        node, nums, pending := found.0.node, found.0.nums, found.0.pending;
        if found.1 {
          return Ok((Nodes(node, nums, pending), true));
        }
      }
    }
    r := Ok((Nodes(node, nums, pending), false));
  }

  /** The loop over a network of type 3 (lines 678-688). */
  method ReadNodeLines(lines: seq<string>, names: seq<string>) returns (r: Res<(Nodes, bool)>)
    ensures r == Steps((l, s) => NodeLine(names, l, s), lines, 0, Nodes(1, Zeros(|names|), names))
  {
    var node, nums, pending := 1, Zeros(|names|), names;
    ghost var step := (l, s) => NodeLine(names, l, s);
    for k := 0 to |lines|
      invariant Steps(step, lines, k, Nodes(node, nums, pending)) == Steps(step, lines, 0, Nodes(1, Zeros(|names|), names))
    {
      var line := lines[k];
      if StartsWith(line, "*node") {
        var ls := SplitOn(Strip(line), ',');
        if |ls| < 2 {
          return Fail(Raised(IndexError));
        }
        var found := NodeFound(names, Nodes(node, nums, pending), ls[1]);
        node, nums, pending := found.0.node, found.0.nums, found.0.pending;
        if found.1 {
          return Ok((Nodes(node, nums, pending), true));
        }
      }
    }
    r := Ok((Nodes(node, nums, pending), false));
  }

  /** The zone node numbers of a network (lines 656-690): afn_zon_nod_nums is written when a
      loop breaks, with the numbers in the order of the zone nodes. */
  method ReadAfnNodes(lines: seq<string>, afnType: int, names: seq<string>) returns (r: Res<Option<seq<string>>>)
    ensures r == AfnNodeNumbers(lines, afnType, names)
  {
    if afnType == 1 || afnType == 3 {
      var q;
      if afnType == 1 {
        q := ReadTableNodes(lines, names);
      } else {
        q := ReadNodeLines(lines, names);
      }
      if q.Fail? {
        return Fail(q.why);
      }
      r := Ok(if q.value.1 then Some(q.value.0.nums) else None);
    } else {
      r := Ok(None);
    }
  }

  // ---------------------------------------------------------------- plant components (lines 1067-1098)

  /** The variables of the loop over the plant network file: the component counter, the `#->`
      markers seen, whether the last line was one, whether the component count is still to be
      read, the component count (it keeps its value from an earlier pass over the file), the
      two values and whether each is still wanted. */
  datatype Plant = Plant(
    comp: int,
    markers: int,
    marked: bool,
    countNext: bool,
    count: Option<int>,
    numbers: string,
    names: string,
    wantNumbers: bool,
    wantNames: bool)

  /** The variables before the first line of a pass over the file. */
  function PlantStart(count: Option<int>, numbers: string, names: string, wantNumbers: bool, wantNames: bool): Plant {
    Plant(-3, 0, false, true, count, numbers, names, wantNumbers, wantNames)
  }

  /** `v = head + x` for the first component and `v = v + ',' + x` after it. */
  function Entry(comp: int, head: string, v: string, x: string): string {
    if comp == 1 then head + x else v + "," + x
  }

  /** One pass of the loop body: the line after a `#->` marker names a component, by its
      first two tokens; the loop breaks at the marker the component count asks for. */
  function PlantLine(heads: (string, string), line: string, st: Plant): (r: Res<(Plant, bool)>)
    ensures r.Ok? && !st.wantNumbers ==> !r.value.0.wantNumbers && r.value.0.numbers == st.numbers
    ensures r.Ok? && !st.wantNames ==> !r.value.0.wantNames && r.value.0.names == st.names
    ensures r.Ok? && r.value.1 ==> !r.value.0.wantNumbers && !r.value.0.wantNames && r.value.0.count == Some(r.value.0.markers)
  {
    if line == [] then Fail(Raised(IndexError))
    else
      var comp := if line[0] != '#' then st.comp + 1 else st.comp;
      var ls := Tokens(line);
      if st.countNext && comp == 0 then
        var a :- At(ls, 0);
        var m :- Int(a);
        Ok((st.(comp := comp, countNext := false, count := Some(m)), false))
      else
        var t0 :- At(ls, 0);
        if t0 == "#->" then Ok((st.(comp := comp, marked := true, markers := st.markers + 1), false))
        else if st.marked then
          var numbers :- if st.wantNumbers then (var t1 :- At(ls, 1); Ok(Entry(comp, heads.0, st.numbers, t1))) else Ok(st.numbers);
          var names := if st.wantNames then Entry(comp, heads.1, st.names, t0) else st.names;
          var st1 := st.(comp := comp, marked := false, numbers := numbers, names := names);
          if st.count.None? then Fail(Raised(NameError))
          else if st.markers == st.count.value then Ok((st1.(wantNumbers := false, wantNames := false), true))
          else Ok((st1, false))
        else Ok((st.(comp := comp), false))
  }

  /** A pass over the plant network file. */
  function PlantScan(lines: seq<string>, heads: (string, string), st: Plant): Res<(Plant, bool)> {
    Steps((l, s) => PlantLine(heads, l, s), lines, 0, st)
  }

  /** When the pass breaks, both values are complete: neither is wanted any more, and the
      component count equals the markers seen. */
  lemma PlantStops(lines: seq<string>, heads: (string, string), st: Plant)
    ensures var r := PlantScan(lines, heads, st);
      r.Ok? && r.value.1 ==> !r.value.0.wantNumbers && !r.value.0.wantNames && r.value.0.count == Some(r.value.0.markers)
  {
    StepsStop((l, s) => PlantLine(heads, l, s),
              (s: Plant) => !s.wantNumbers && !s.wantNames && s.count == Some(s.markers), lines, 0, st);
  }

  /** The component numbers are never written when they are not wanted. */
  lemma PlantKeepsNumbers(lines: seq<string>, heads: (string, string), st: Plant)
    requires !st.wantNumbers
    ensures var r := PlantScan(lines, heads, st);
      r.Ok? ==> !r.value.0.wantNumbers && r.value.0.numbers == st.numbers
  {
    var step := (l, s) => PlantLine(heads, l, s);
    var inv := (s: Plant) => !s.wantNumbers && s.numbers == st.numbers;
    StepsKeep(step, inv, lines, 0, st);
  }

  /** The component names are never written when they are not wanted. */
  lemma PlantKeepsNames(lines: seq<string>, heads: (string, string), st: Plant)
    requires !st.wantNames
    ensures var r := PlantScan(lines, heads, st);
      r.Ok? ==> !r.value.0.wantNames && r.value.0.names == st.names
  {
    var step := (l, s) => PlantLine(heads, l, s);
    var inv := (s: Plant) => !s.wantNames && s.names == st.names;
    StepsKeep(step, inv, lines, 0, st);
  }

  /** The for loop over the plant network file (lines 1073-1097). */
  method ReadPlant(lines: seq<string>, heads: (string, string), st0: Plant) returns (r: Res<(Plant, bool)>)
    ensures r == PlantScan(lines, heads, st0)
  {
    var st := st0;
    ghost var step := (l, s) => PlantLine(heads, l, s);
    for k := 0 to |lines|
      invariant Steps(step, lines, k, st) == PlantScan(lines, heads, st0)
    {
      var pass := PlantLine(heads, lines[k], st);
      if pass.Fail? {
        return Fail(pass.why);
      }
      st := pass.value.0;
      if pass.value.1 {
        return Ok((st, true));
      }
    }
    r := Ok((st, false));
  }
}
