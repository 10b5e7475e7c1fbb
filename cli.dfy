/**
 * The dispatcher's command line (scripts/main.py:441-503) and the pause between
 * dispatch cycles (scripts/main.py:403-411).
 *
 * `float()` is Python's own number parser; it is a parameter here (`floatOf`), so the
 * model says which argument is handed to it and what happens when it refuses.
 */
module CommandLine {
  import opened Wrappers

  /** The dispatch interval when none is given, in seconds. */
  const DEFAULT_INTERVAL: real := 15.0

  /** What the dispatcher starts with when the command line is accepted. */
  datatype Config = Config(shareDir: string, interval: real, debug: bool)

  /** Why the command line was refused. */
  datatype Refusal =
    | EmptyArgument          // `arg[0]` of an empty argument raises IndexError
    | UnknownOption(arg: string)
    | IntervalNotNumber
    | WrongArgCount

  datatype Invocation =
    | ShowHelp               // help text, then exit 0
    | Refuse(why: Refusal)   // message on stderr (or a traceback), then exit 1
    | Serve(config: Config)  // the service loop starts

  /** The process status a refused or answered command line ends with. */
  function ExitCode(inv: Invocation): (code: Option<int>)
    ensures code == None <==> inv.Serve?
    ensures inv.ShowHelp? ==> code == Some(0)
    ensures inv.Refuse? ==> code == Some(1)
  {
    match inv
    case ShowHelp => Some(0)
    case Refuse(_) => Some(1)
    case Serve(_) => None
  }

  predicate IsOption(arg: string) {
    |arg| > 0 && arg[0] == '-'
  }

  predicate IsHelp(arg: string) {
    arg == "-h" || arg == "--help"
  }

  predicate IsDebug(arg: string) {
    arg == "-d" || arg == "--debug"
  }

  /** The arguments that are not options, in order. */
  function Positionals(args: seq<string>): (pos: seq<string>)
    ensures |pos| <= |args|
  {
    if args == [] then []
    else
      var rest := Positionals(args[..|args| - 1]);
      var a := args[|args| - 1];
      if a != [] && !IsOption(a) then rest + [a] else rest
  }

  /** Every positional argument is a non-empty argument that is not an option. */
  lemma {:induction false} PositionalsAreArguments(args: seq<string>)
    ensures forall a :: a in Positionals(args) ==> a in args && a != [] && !IsOption(a)
  {
    if args != [] {
      var init := args[..|args| - 1];
      PositionalsAreArguments(init);
      forall a | a in init ensures a in args {
        var k :| 0 <= k < |init| && init[k] == a;
        assert args[k] == a;
      }
    }
  }

  /** The shared folder argument, with one trailing '/' removed. */
  function TrimSlash(dir: string): (r: string)
    ensures dir != [] && dir[|dir| - 1] == '/' ==> r + "/" == dir
    ensures dir == [] || dir[|dir| - 1] != '/' ==> r == dir
  {
    if dir != [] && dir[|dir| - 1] == '/' then dir[..|dir| - 1] else dir
  }

  /** Some argument is the debug option. */
  predicate DebugAsked(args: seq<string>) {
    "-d" in args || "--debug" in args
  }

  /** Argument `i` stops the scan: it is empty, it asks for help, it is an unknown option,
      or it is the second positional argument and not a number. */
  predicate Stops(args: seq<string>, i: nat, floatOf: string -> Option<real>)
    requires i < |args|
  {
    var a := args[i];
    || a == []
    || (IsOption(a) && !IsDebug(a))
    || (!IsOption(a) && |Positionals(args[..i])| == 1 && floatOf(a).None?)
  }

  /** The first argument from `i` on that stops the scan. */
  function FirstStop(args: seq<string>, i: nat, floatOf: string -> Option<real>): (r: Option<nat>)
    requires i <= |args|
    ensures r.Some? ==> i <= r.value < |args| && Stops(args, r.value, floatOf)
    ensures r.Some? ==> forall t :: i <= t < r.value ==> !Stops(args, t, floatOf)
    ensures r.None? ==> forall t :: i <= t < |args| ==> !Stops(args, t, floatOf)
    decreases |args| - i
  {
    if i == |args| then None
    else if Stops(args, i, floatOf) then Some(i)
    else FirstStop(args, i + 1, floatOf)
  }

  /** What the command line means, stated over the whole argument list: the first argument
      that stops the scan decides, and otherwise one or two positional arguments are needed. */
  function Meaning(args: seq<string>, floatOf: string -> Option<real>): Invocation {
    match FirstStop(args, 0, floatOf)
    case Some(i) =>
      var a := args[i];
      if a == [] then Refuse(EmptyArgument)
      else if IsHelp(a) then ShowHelp
      else if IsOption(a) then Refuse(UnknownOption(a))
      else Refuse(IntervalNotNumber)
    case None =>
      var pos := Positionals(args);
      if 1 <= |pos| <= 2 then
        Serve(Config(
          TrimSlash(pos[0]),
          if |pos| == 2 then floatOf(pos[1]).GetOr(DEFAULT_INTERVAL) else DEFAULT_INTERVAL,
          DebugAsked(args)))
      else Refuse(WrongArgCount)
  }

  lemma PositionalsStep(args: seq<string>, i: nat)
    requires i < |args|
    ensures Positionals(args[..i + 1]) ==
      if args[i] != [] && !IsOption(args[i]) then Positionals(args[..i]) + [args[i]]
      else Positionals(args[..i])
  {
    assert args[..i + 1][..i] == args[..i];
  }

  /** The argument loop of main() (scripts/main.py:449-503). */
  method ParseCommandLine(args: seq<string>, floatOf: string -> Option<real>) returns (inv: Invocation)
    ensures inv == Meaning(args, floatOf)
  {
    var interval := DEFAULT_INTERVAL;
    var debug := false;
    var argCount := 0;
    var shareDir := "";
    var i := 0;
    ghost var pos: seq<string> := [];
    while i < |args|
      invariant 0 <= i <= |args|
      invariant FirstStop(args, 0, floatOf) == FirstStop(args, i, floatOf)
      invariant pos == Positionals(args[..i]) && argCount == |pos|
      invariant argCount >= 1 ==> shareDir == TrimSlash(pos[0])
      invariant argCount >= 2 ==> interval == floatOf(pos[1]).GetOr(DEFAULT_INTERVAL)
      invariant argCount < 2 ==> interval == DEFAULT_INTERVAL
      invariant debug == DebugAsked(args[..i])
    {
      var arg := args[i];
      assert args[..i + 1] == args[..i] + [arg];
      PositionalsStep(args, i);
      ghost var before := pos;
      if arg == [] {
        return Refuse(EmptyArgument);
      }
      if arg[0] == '-' {
        if arg == "-h" || arg == "--help" {
          return ShowHelp;
        } else if arg == "-d" || arg == "--debug" {
          debug := true;
        } else {
          return Refuse(UnknownOption(arg));
        }
      } else {
        pos := pos + [arg];
        assert argCount >= 1 ==> pos[0] == before[0];
        assert argCount >= 2 ==> pos[1] == before[1];
        argCount := argCount + 1;
        if argCount == 1 {
          shareDir := arg;
          if shareDir[|shareDir| - 1] == '/' {
            shareDir := shareDir[..|shareDir| - 1];
          }
        } else if argCount == 2 {
          var r := floatOf(arg);
          if r.None? {
            return Refuse(IntervalNotNumber);
          }
          interval := r.value;
        }
      }
      i := i + 1;
    }
    assert args[..i] == args;
    if argCount < 1 || argCount > 2 {
      return Refuse(WrongArgCount);
    }
    inv := Serve(Config(shareDir, interval, debug));
  }

  /** The service starts exactly when no argument stops the scan and there are one or two
      positional arguments; it then serves the first one, trimmed, and the second one as the
      interval when it is given. */
  lemma ServesIff(args: seq<string>, floatOf: string -> Option<real>)
    ensures Meaning(args, floatOf).Serve? <==>
      (forall t :: 0 <= t < |args| ==> !Stops(args, t, floatOf)) && 1 <= |Positionals(args)| <= 2
    ensures Meaning(args, floatOf).Serve? ==>
      var pos := Positionals(args);
      var c := Meaning(args, floatOf).config;
      && c.shareDir == TrimSlash(pos[0])
      && (|pos| == 2 ==> floatOf(pos[1]) == Some(c.interval))
      && (|pos| == 1 ==> c.interval == DEFAULT_INTERVAL)
      && (c.debug <==> exists t :: 0 <= t < |args| && IsDebug(args[t]))
  {
    var pos := Positionals(args);
    if FirstStop(args, 0, floatOf).None? && 1 <= |pos| <= 2 {
      if |pos| == 2 {
        SecondIsParsed(args, floatOf);
      }
      var c := Meaning(args, floatOf).config;
      if c.debug {
        var t :| 0 <= t < |args| && IsDebug(args[t]);
      }
      if exists t :: 0 <= t < |args| && IsDebug(args[t]) {
        var t :| 0 <= t < |args| && IsDebug(args[t]);
        assert args[t] in args;
      }
    }
  }

  /** The second positional argument is the one before which exactly one positional
      argument appears. */
  lemma {:induction false} SecondAt(args: seq<string>)
    requires |Positionals(args)| >= 2
    ensures exists i :: (0 <= i < |args| && args[i] == Positionals(args)[1]
      && args[i] != [] && !IsOption(args[i]) && |Positionals(args[..i])| == 1)
  {
    var n := |args|;
    var init := args[..n - 1];
    assert args[..n - 1 + 1] == args;
    PositionalsStep(args, n - 1);
    if |Positionals(init)| >= 2 {
      SecondAt(init);
      var i :| 0 <= i < |init| && init[i] == Positionals(init)[1]
        && init[i] != [] && !IsOption(init[i]) && |Positionals(init[..i])| == 1;
      assert init[..i] == args[..i];
      assert args[i] == Positionals(args)[1];
    } else {
      assert args[n - 1] == Positionals(args)[1];
    }
  }

  /** When nothing stops the scan, the second positional argument is a number. */
  lemma SecondIsParsed(args: seq<string>, floatOf: string -> Option<real>)
    requires FirstStop(args, 0, floatOf).None? && |Positionals(args)| >= 2
    ensures floatOf(Positionals(args)[1]).Some?
  {
    SecondAt(args);
    var i :| 0 <= i < |args| && args[i] == Positionals(args)[1]
      && args[i] != [] && !IsOption(args[i]) && |Positionals(args[..i])| == 1;
    assert !Stops(args, i, floatOf);
  }

  /** Help is shown exactly when a help option comes before every argument that would end
      the scan with an error. */
  lemma HelpIff(args: seq<string>, floatOf: string -> Option<real>)
    ensures Meaning(args, floatOf) == ShowHelp <==>
      exists i :: 0 <= i < |args| && IsHelp(args[i]) && forall t :: 0 <= t < i ==> !Stops(args, t, floatOf)
  {
    var first := FirstStop(args, 0, floatOf);
    if exists i :: 0 <= i < |args| && IsHelp(args[i]) && forall t :: 0 <= t < i ==> !Stops(args, t, floatOf) {
      var i :| 0 <= i < |args| && IsHelp(args[i]) && forall t :: 0 <= t < i ==> !Stops(args, t, floatOf);
      assert Stops(args, i, floatOf);
      assert first.Some? && first.value == i;
    }
  }

  /** The pause after a dispatch that took `taken` seconds (scripts/main.py:403-411): the
      cycle is stretched to the interval, and a late cycle is followed at once. */
  function SleepFor(interval: real, taken: real): (pause: real)
    ensures pause >= 0.0
    ensures taken < interval ==> taken + pause == interval
    ensures taken >= interval ==> pause == 0.0
  {
    if taken < interval then interval - taken else 0.0
  }
}
