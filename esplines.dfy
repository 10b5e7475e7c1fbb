/**
 * How esp-query reads the files of a model. A file is given as the lines Python yields from
 * it, each with its line terminator, so `readline()` at the end of the file gives "".
 * This module also holds the ways a query can end early and getLine
 * (scripts/common/esp-query/esp-query.py:13-18).
 */
module EspLines {
  import opened Wrappers
  import opened PyText

  /** An uncaught Python exception: the script prints a traceback and exits 1. */
  datatype PyError = IndexError | ValueError | AssertionError | NameError | FileNotFound

  /** The ways the script stops before it writes its output. */
  datatype Failure =
    | ErrorExit(message: string)   // `sys.stderr.write(message)`, then `sys.exit(1)`
    | Raised(error: PyError)       // an exception nobody catches
    | Hangs                        // a `while True` loop that never ends

  /** A value, or the way the script stopped while computing it. */
  datatype Res<+T> = Ok(value: T) | Fail(why: Failure) {
    // `var x :- r;` goes on with the value, or stops with the failure as an exception would

    predicate IsFailure() {
      Fail?
    }

    function PropagateFailure<U>(): Res<U>
      requires Fail?
    {
      Fail(why)
    }

    function Extract(): T
      requires Ok?
    {
      value
    }
  }

  /** `ls[k]` in Python for `0 <= k`: IndexError past the end. */
  function At(ls: seq<string>, k: nat): (r: Res<string>)
    ensures r.Ok? <==> k < |ls|
    ensures r.Ok? ==> r.value == ls[k]
    ensures r.Fail? ==> r.why == Raised(IndexError)
  {
    if k < |ls| then Ok(ls[k]) else Fail(Raised(IndexError))
  }

  /** `int(s)` in Python: ValueError for text that is not a decimal integer. */
  function Int(s: string): (r: Res<int>)
    ensures r.Ok? <==> ParseInt(s).Some?
    ensures r.Ok? ==> Some(r.value) == ParseInt(s)
    ensures r.Fail? ==> r.why == Raised(ValueError)
  {
    match ParseInt(s)
    case Some(n) => Ok(n)
    case None => Fail(Raised(ValueError))
  }

  /** `open(path)` on the given files: FileNotFoundError for a path that is not there. */
  function Open(files: map<string, seq<string>>, path: string): (r: Res<seq<string>>)
    ensures r.Ok? <==> path in files
    ensures r.Ok? ==> r.value == files[path]
    ensures r.Fail? ==> r.why == Raised(FileNotFound)
  {
    if path in files then Ok(files[path]) else Fail(Raised(FileNotFound))
  }

  /** What `readline()` gives at position `pos`: the line, or "" at the end of the file. */
  function LineAt(lines: seq<string>, pos: nat): string {
    if pos < |lines| then lines[pos] else ""
  }

  /** Where the file position is after `n` more lines have been asked for. */
  function Advance(lines: seq<string>, pos: nat, n: nat): (p: nat)
    requires pos <= |lines|
    ensures pos <= p <= |lines|
    ensures pos + n <= |lines| ==> p == pos + n
    ensures pos + n > |lines| ==> p == |lines|
  {
    if pos + n <= |lines| then pos + n else |lines|
  }

  /** What getLine(f, n) returns when the file is at `pos`: the tokens of the n-th line down. */
  function LineDown(lines: seq<string>, pos: nat, n: nat): seq<string>
    requires n >= 1
  {
    Tokens(LineAt(lines, pos + n - 1))
  }

  /** An open file: its lines and the position of the next line to read. */
  class Reader {
    const lines: seq<string>
    var pos: nat

    ghost predicate Valid()
      reads this
    {
      pos <= |lines|
    }

    constructor (lines: seq<string>)
      ensures Valid() && this.lines == lines && pos == 0
    {
      this.lines := lines;
      pos := 0;
    }

    /** `f.readline()`: the next line, or "" at the end, where the position stays. */
    method ReadLine() returns (s: string)
      requires Valid()
      modifies this
      ensures Valid()
      ensures s == LineAt(lines, old(pos)) && pos == Advance(lines, old(pos), 1)
    {
      if pos < |lines| {
        s := lines[pos];
        pos := pos + 1;
      } else {
        s := "";
      }
    }

    /** getLine(f, n) (scripts/common/esp-query/esp-query.py:13-18): reads `n` lines and
        returns the whitespace tokens of the last one read. */
    method GetLine(n: nat) returns (ls: seq<string>)
      requires Valid() && n >= 1
      modifies this
      ensures Valid()
      ensures pos == Advance(lines, old(pos), n)
      ensures ls == LineDown(lines, old(pos), n)
    {
      var s := "";
      var i := 0;
      while i < n
        invariant Valid() && 0 <= i <= n
        invariant pos == Advance(lines, old(pos), i)
        invariant i >= 1 ==> s == LineAt(lines, old(pos) + i - 1)
      {
        s := ReadLine();
        i := i + 1;
      }
      ls := Tokens(s);
    }
  }

  /** getLine reads exactly `n` lines while the file has them, and at its end returns no
      tokens and stays there. */
  lemma GetLineEnd(lines: seq<string>, pos: nat, n: nat)
    requires pos <= |lines| && n >= 1 && pos + n > |lines|
    ensures Advance(lines, pos, n) == |lines| && LineDown(lines, pos, n) == []
  {
  }

  /** A loop over the lines of a file from line `k` on, in state `st`: `step` gives the
      next state and whether the loop breaks there. The result says whether it broke. */
  function Steps<S>(step: (string, S) -> Res<(S, bool)>, lines: seq<string>, k: nat, st: S): Res<(S, bool)>
    requires k <= |lines|
    decreases |lines| - k
  {
    if k == |lines| then Ok((st, false))
    else
      var (st1, stop) :- step(lines[k], st);
      if stop then Ok((st1, true)) else Steps(step, lines, k + 1, st1)
  }

  /** When `done` holds after every pass that breaks, it holds when the loop broke. */
  lemma {:induction false} StepsStop<S>(step: (string, S) -> Res<(S, bool)>, done: S -> bool,
                                        lines: seq<string>, k: nat, st: S)
    requires k <= |lines|
    requires forall l, s :: step(l, s).Ok? && step(l, s).value.1 ==> done(step(l, s).value.0)
    ensures Steps(step, lines, k, st).Ok? && Steps(step, lines, k, st).value.1 ==>
      done(Steps(step, lines, k, st).value.0)
    decreases |lines| - k
  {
    if k < |lines| && step(lines[k], st).Ok? && !step(lines[k], st).value.1 {
      StepsStop(step, done, lines, k + 1, step(lines[k], st).value.0);
    }
  }

  /** A loop that never breaks keeps every property each pass keeps. */
  lemma {:induction false} StepsKeep<S>(step: (string, S) -> Res<(S, bool)>, inv: S -> bool,
                                        lines: seq<string>, k: nat, st: S)
    requires k <= |lines| && inv(st)
    requires forall l, s :: inv(s) && step(l, s).Ok? ==> inv(step(l, s).value.0)
    ensures Steps(step, lines, k, st).Ok? ==> inv(Steps(step, lines, k, st).value.0)
    decreases |lines| - k
  {
    if k < |lines| && step(lines[k], st).Ok? && !step(lines[k], st).value.1 {
      StepsKeep(step, inv, lines, k + 1, step(lines[k], st).value.0);
    }
  }
}
