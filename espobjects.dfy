/**
 * The visual objects of a zone's geometry file: the number of toilets, urinals, showers,
 * printers and photocopiers in each zone (scripts/common/esp-query/esp-query.py:886-1045)
 * counts the `*vobject` lines whose name holds the word.
 */
module EspObjects {
  import opened Wrappers
  import opened PyText
  import opened EspLines

  /** Whether a geometry file line is a visual object whose name holds `word`; IndexError for a
      `*vobject` line with no name field. */
  function IsObject(word: string, line: string): (r: Res<bool>)
    ensures var fields := SplitOn(Strip(line), ',');
      && (r.Ok? <==> fields[0] != "*vobject" || |fields| >= 2)
      && (r.Ok? ==> (r.value <==> fields[0] == "*vobject" && Contains(fields[1], word)))
      && (r.Fail? ==> r.why == Raised(IndexError))
  {
    var fields := SplitOn(Strip(line), ',');
    if fields[0] == "*vobject" then
      var name :- At(fields, 1);
      Ok(Contains(name, word))
    else Ok(false)
  }

  /** The number of lines of `lines` that `kind` accepts, or how the first it cannot judge
      fails. */
  function CountWhere(kind: string -> Res<bool>, lines: seq<string>): (r: Res<nat>)
    ensures r.Ok? ==> r.value <= |lines|
    decreases |lines|
  {
    if lines == [] then Ok(0)
    else
      var c :- CountWhere(kind, lines[..|lines| - 1]);
      var b :- kind(lines[|lines| - 1]);
      Ok(if b then c + 1 else c)
  }

  /** A count succeeds exactly when every line can be judged. */
  lemma {:induction false} CountWhereOk(kind: string -> Res<bool>, lines: seq<string>)
    ensures CountWhere(kind, lines).Ok? <==> forall i :: 0 <= i < |lines| ==> kind(lines[i]).Ok?
    decreases |lines|
  {
    if lines != [] {
      var init := lines[..|lines| - 1];
      CountWhereOk(kind, init);
      assert forall i :: 0 <= i < |init| ==> init[i] == lines[i];
    }
  }

  /** Counting two pieces of a file one after the other adds their counts. */
  lemma {:induction false} CountWhereAppend(kind: string -> Res<bool>, a: seq<string>, b: seq<string>)
    requires CountWhere(kind, a).Ok? && CountWhere(kind, b).Ok?
    ensures CountWhere(kind, a + b) == Ok(CountWhere(kind, a).value + CountWhere(kind, b).value)
    decreases |b|
  {
    if b == [] {
      assert a + b == a;
    } else {
      var init := b[..|b| - 1];
      assert (a + b)[..|a + b| - 1] == a + init;
      assert (a + b)[|a + b| - 1] == b[|b| - 1];
      CountWhereAppend(kind, a, init);
    }
  }

  /** The count of one line is 1 when the line is accepted and 0 when it is not. */
  lemma CountWhereOne(kind: string -> Res<bool>, line: string)
    requires kind(line).Ok?
    ensures CountWhere(kind, [line]) == Ok(if kind(line).value then 1 else 0)
  {
    assert [line][..0] == [];
  }

  /** The loop over a geometry file (for instance lines 897-901). */
  method Count(kind: string -> Res<bool>, lines: seq<string>) returns (r: Res<nat>)
    ensures r == CountWhere(kind, lines)
  {
    var n := 0;
    for k := 0 to |lines|
      invariant CountWhere(kind, lines[..k]) == Ok(n)
    {
      assert lines[..k + 1][..k] == lines[..k];
      var b := kind(lines[k]);
      if b.Fail? {
        EarlierFailure(kind, lines, k + 1);
        return Fail(b.why);
      }
      if b.value {
        n := n + 1;
      }
    }
    assert lines[..|lines|] == lines;
    r := Ok(n);
  }

  /** A count that fails on a prefix of the lines fails the same way on all of them. */
  lemma {:induction false} EarlierFailure(kind: string -> Res<bool>, lines: seq<string>, k: nat)
    requires k <= |lines| && CountWhere(kind, lines[..k]).Fail?
    ensures CountWhere(kind, lines) == CountWhere(kind, lines[..k])
    decreases |lines| - k
  {
    if k < |lines| {
      assert lines[..k + 1][..k] == lines[..k];
      EarlierFailure(kind, lines, k + 1);
    } else {
      assert lines[..k] == lines;
    }
  }

  /** The number of visual objects named after `word` in a geometry file. */
  function ObjectCount(lines: seq<string>, word: string): Res<nat> {
    CountWhere(l => IsObject(word, l), lines)
  }

  /** The count of a geometry file for one of the words. */
  method CountObjects(lines: seq<string>, word: string) returns (r: Res<nat>)
    ensures r == ObjectCount(lines, word)
  {
    r := Count(l => IsObject(word, l), lines);
  }
}
