/**
 * The command line of the `check` tool. `RawArgs` is what the token loop
 * collects; `ParsedArgs` is the final selection. Each selected list is either
 * the full list, the default list, or the full list filtered by the values
 * given. The arguments are a `seq<string>` that does not include the
 * program name.
 */
module CheckParsing {
  import opened Wrappers
  import opened CheckData
  import opened CheckCommands

  datatype RawArgs = RawArgs(
    commands: set<CargoCommand>,
    channels: set<Channel>,
    targets: set<Target>,
    packages: set<Package>,
    onSave: bool,
    allCommands: bool,
    allChannels: bool,
    allTargets: bool,
    allPackages: bool,
    noCache: bool,
    trailingArgs: seq<string>)

  /** `RawArgs::default()`: nothing selected, no flag set. */
  function DefaultRawArgs(): (r: RawArgs)
    ensures r.commands == {} && r.channels == {} && r.targets == {} && r.packages == {}
    ensures !r.onSave && !r.noCache && r.trailingArgs == []
    ensures !r.allCommands && !r.allChannels && !r.allTargets && !r.allPackages
  {
    RawArgs({}, {}, {}, {}, false, false, false, false, false, false, [])
  }

  /** The error for a value option with nothing after it: it quotes the option in backticks. */
  function MissingArgument(option: string): (msg: string)
    ensures |msg| == |option| + 25
    ensures msg[23] == msg[|msg| - 1] == '`' && msg[24..|msg| - 1] == option
  {
    "Missing argument after `" + option + "`"
  }

  /** The error for an argument the loop does not know: it names the argument after the colon. */
  function UnknownArgument(arg: string): (msg: string)
    ensures |msg| == |arg| + 58
    ensures msg[16] == ':' && msg[18..18 + |arg|] == arg
  {
    "Unknown argument: " + arg + " (maybe you meant to pass it after \"--\")"
  }

  /** The options that take a value. */
  const VALUE_OPTIONS: set<string> := {"--command", "--channel", "--target", "--package"}

  /** Every argument the token loop accepts before `--`. */
  const KNOWN_ARGUMENTS: set<string> := VALUE_OPTIONS + {
    "--", "--all", "--all-commands", "--all-channels", "--all-targets", "--all-packages",
    "--on-save", "--no-cache"
  }

  /** Parsing only adds: selected values and set flags stay, and the trailing arguments only grow. */
  ghost predicate Extends(before: RawArgs, after: RawArgs) {
    && before.commands <= after.commands
    && before.channels <= after.channels
    && before.targets <= after.targets
    && before.packages <= after.packages
    && (before.onSave ==> after.onSave)
    && (before.noCache ==> after.noCache)
    && (before.allCommands ==> after.allCommands)
    && (before.allChannels ==> after.allChannels)
    && (before.allTargets ==> after.allTargets)
    && (before.allPackages ==> after.allPackages)
    && |before.trailingArgs| <= |after.trailingArgs|
    && after.trailingArgs[..|before.trailingArgs|] == before.trailingArgs
  }

  /** The arguments the token loop tells apart. */
  datatype Token =
    | EndOfOptions
    | CommandOption | ChannelOption | TargetOption | PackageOption
    | AllOption | AllCommandsOption | AllChannelsOption | AllTargetsOption | AllPackagesOption
    | OnSaveOption | NoCacheOption
    | Unknown

  /** The `match` on an argument in `RawArgs::try_parse`. */
  function Classify(arg: string): Token {
    match arg
    case "--" => EndOfOptions
    case "--command" => CommandOption
    case "--channel" => ChannelOption
    case "--target" => TargetOption
    case "--package" => PackageOption
    case "--all" => AllOption
    case "--all-commands" => AllCommandsOption
    case "--all-channels" => AllChannelsOption
    case "--all-targets" => AllTargetsOption
    case "--all-packages" => AllPackagesOption
    case "--on-save" => OnSaveOption
    case "--no-cache" => NoCacheOption
    case _ => Unknown
  }

  /** The options that consume the next argument as their value. */
  predicate TakesValue(t: Token) {
    t.CommandOption? || t.ChannelOption? || t.TargetOption? || t.PackageOption?
  }

  /** The options that only set a flag. */
  predicate IsFlag(t: Token) {
    !t.EndOfOptions? && !t.Unknown? && !TakesValue(t)
  }

  /**
   * The loop tells apart exactly the known arguments, `--` is the only end of
   * the options, and the value options are the ones that take a value.
   */
  lemma ClassifyKnown(arg: string)
    ensures Classify(arg).Unknown? <==> arg !in KNOWN_ARGUMENTS
    ensures Classify(arg).EndOfOptions? <==> arg == "--"
    ensures TakesValue(Classify(arg)) <==> arg in VALUE_OPTIONS
  {
  }

  /** What one iteration of the token loop does: stop with a result, or consume some arguments and go on. */
  datatype Step = Stop(result: Result<RawArgs, string>) | Continue(consumed: nat, next: RawArgs)

  /**
   * A value option followed by its value: parse the value, failing with the
   * parser's own message, and add it to the matching selection.
   */
  function ValueStep(t: Token, value: string, raw: RawArgs): (s: Step)
    requires TakesValue(t)
    ensures s.Continue? ==>
              && s.consumed == 2
              && Extends(raw, s.next) && s.next.trailingArgs == raw.trailingArgs
    ensures s.Stop? ==> s.result.Err?
    ensures t.CommandOption? ==> s == AddCommand(value, raw)
    ensures t.ChannelOption? ==> s == AddChannel(value, raw)
    ensures t.TargetOption? ==> s == AddTarget(value, raw)
    ensures t.PackageOption? ==> s == AddPackage(value, raw)
  {
    match t
    case CommandOption => AddCommand(value, raw)
    case ChannelOption => AddChannel(value, raw)
    case TargetOption => AddTarget(value, raw)
    case PackageOption => AddPackage(value, raw)
  }

  /** `--command`: the parsed command joins the selection, or the parser's error stops the loop. */
  function AddCommand(value: string, raw: RawArgs): (s: Step)
    ensures s.Continue? <==> ParseCommand(value).Ok?
    ensures s.Continue? ==> && s.consumed == 2
                            && s.next.commands == raw.commands + {ParseCommand(value).value}
                            && s.next.(commands := raw.commands) == raw
    ensures s.Stop? ==> s.result == Err(ParseCommand(value).error)
  {
    match ParseCommand(value)
    case Err(e) => Stop(Err(e))
    case Ok(c) => Continue(2, raw.(commands := raw.commands + {c}))
  }

  /** `--channel`: the parsed channel joins the selection, or the parser's error stops the loop. */
  function AddChannel(value: string, raw: RawArgs): (s: Step)
    ensures s.Continue? <==> ParseChannel(value).Ok?
    ensures s.Continue? ==> && s.consumed == 2
                            && s.next.channels == raw.channels + {ParseChannel(value).value}
                            && s.next.(channels := raw.channels) == raw
    ensures s.Stop? ==> s.result == Err(ParseChannel(value).error)
  {
    match ParseChannel(value)
    case Err(e) => Stop(Err(e))
    case Ok(c) => Continue(2, raw.(channels := raw.channels + {c}))
  }

  /** `--target`: never fails; the parsed target, named or custom, joins the selection. */
  function AddTarget(value: string, raw: RawArgs): (s: Step)
    ensures s.Continue? && s.consumed == 2
    ensures s.next.targets == raw.targets + {ParseTarget(value)}
    ensures s.next.(targets := raw.targets) == raw
  {
    Continue(2, raw.(targets := raw.targets + {ParseTarget(value)}))
  }

  /** `--package`: the parsed package joins the selection, or the parser's error stops the loop. */
  function AddPackage(value: string, raw: RawArgs): (s: Step)
    ensures s.Continue? <==> ParsePackage(value).Ok?
    ensures s.Continue? ==> && s.consumed == 2
                            && s.next.packages == raw.packages + {ParsePackage(value).value}
                            && s.next.(packages := raw.packages) == raw
    ensures s.Stop? ==> s.result == Err(ParsePackage(value).error)
  {
    match ParsePackage(value)
    case Err(e) => Stop(Err(e))
    case Ok(p) => Continue(2, raw.(packages := raw.packages + {p}))
  }

  /** A flag option: set its flag, or all four `all` flags for `--all`. */
  function FlagStep(t: Token, raw: RawArgs): (next: RawArgs)
    requires IsFlag(t)
    ensures Extends(raw, next) && next.trailingArgs == raw.trailingArgs
    ensures next.commands == raw.commands && next.channels == raw.channels
    ensures next.targets == raw.targets && next.packages == raw.packages
    ensures next.allCommands == (raw.allCommands || t.AllOption? || t.AllCommandsOption?)
    ensures next.allChannels == (raw.allChannels || t.AllOption? || t.AllChannelsOption?)
    ensures next.allTargets == (raw.allTargets || t.AllOption? || t.AllTargetsOption?)
    ensures next.allPackages == (raw.allPackages || t.AllOption? || t.AllPackagesOption?)
    ensures next.onSave == (raw.onSave || t.OnSaveOption?)
    ensures next.noCache == (raw.noCache || t.NoCacheOption?)
  {
    match t
    case AllOption => raw.(allCommands := true, allChannels := true, allTargets := true, allPackages := true)
    case AllCommandsOption => raw.(allCommands := true)
    case AllChannelsOption => raw.(allChannels := true)
    case AllTargetsOption => raw.(allTargets := true)
    case AllPackagesOption => raw.(allPackages := true)
    case OnSaveOption => raw.(onSave := true)
    case NoCacheOption => raw.(noCache := true)
  }

  /**
   * One iteration of the token loop on the remaining arguments. An option
   * that is not `--` either fails or consumes itself (and its value) and only
   * adds to what was collected; only `--` stops successfully, keeping the rest.
   */
  function TokenStep(args: seq<string>, raw: RawArgs): (s: Step)
    requires args != []
    ensures s.Continue? ==>
              && 1 <= s.consumed <= |args|
              && Extends(raw, s.next) && s.next.trailingArgs == raw.trailingArgs
    ensures s.Stop? && s.result.Ok? ==> s.result.value == raw.(trailingArgs := raw.trailingArgs + args[1..])
  {
    var t := Classify(args[0]);
    if t.EndOfOptions? then Stop(Ok(raw.(trailingArgs := raw.trailingArgs + args[1..])))
    else if t.Unknown? then Stop(Err(UnknownArgument(args[0])))
    else if !TakesValue(t) then Continue(1, FlagStep(t, raw))
    else if |args| < 2 then Stop(Err(MissingArgument(args[0])))
    else ValueStep(t, args[1], raw)
  }

  /**
   * What the token loop computes from the remaining `args` when it has
   * collected `raw` so far: the reference definition of `RawArgs::try_parse`.
   */
  function ParseTokens(args: seq<string>, raw: RawArgs): Result<RawArgs, string>
    decreases |args|
  {
    if args == [] then Ok(raw)
    else
      match TokenStep(args, raw)
      case Stop(result) => result
      case Continue(n, next) => ParseTokens(args[n..], next)
  }

  /**
   * `RawArgs::try_parse`: the `while let` loop over the arguments. Each value
   * option consumes the next argument; `--` moves the rest into the trailing
   * arguments and stops.
   */
  method TryParseRawArgs(args: seq<string>) returns (r: Result<RawArgs, string>)
    ensures r == ParseTokens(args, DefaultRawArgs())
  {
    var raw := DefaultRawArgs();
    var i := 0;
    while i < |args|
      invariant 0 <= i <= |args|
      invariant ParseTokens(args[i..], raw) == ParseTokens(args, DefaultRawArgs())
      decreases |args| - i
    {
      var arg := args[i];
      assert args[i..][0] == arg;
      assert args[i..][1..] == args[i + 1..];
      i := i + 1;
      match Classify(arg) {
        case EndOfOptions =>
          raw := raw.(trailingArgs := raw.trailingArgs + args[i..]);
          return Ok(raw);
        case CommandOption =>
          if i == |args| {
            return Err(MissingArgument(arg));
          }
          assert args[i - 1..][2..] == args[i + 1..];
          var parsed := ParseCommand(args[i]);
          if parsed.Err? {
            return Err(parsed.error);
          }
          raw := raw.(commands := raw.commands + {parsed.value});
          i := i + 1;
        case ChannelOption =>
          if i == |args| {
            return Err(MissingArgument(arg));
          }
          assert args[i - 1..][2..] == args[i + 1..];
          var parsed := ParseChannel(args[i]);
          if parsed.Err? {
            return Err(parsed.error);
          }
          raw := raw.(channels := raw.channels + {parsed.value});
          i := i + 1;
        case TargetOption =>
          if i == |args| {
            return Err(MissingArgument(arg));
          }
          assert args[i - 1..][2..] == args[i + 1..];
          raw := raw.(targets := raw.targets + {ParseTarget(args[i])});
          i := i + 1;
        case PackageOption =>
          if i == |args| {
            return Err(MissingArgument(arg));
          }
          assert args[i - 1..][2..] == args[i + 1..];
          var parsed := ParsePackage(args[i]);
          if parsed.Err? {
            return Err(parsed.error);
          }
          raw := raw.(packages := raw.packages + {parsed.value});
          i := i + 1;
        case AllOption =>
          raw := raw.(allCommands := true, allChannels := true, allTargets := true, allPackages := true);
        case AllCommandsOption => raw := raw.(allCommands := true);
        case AllChannelsOption => raw := raw.(allChannels := true);
        case AllTargetsOption => raw := raw.(allTargets := true);
        case AllPackagesOption => raw := raw.(allPackages := true);
        case OnSaveOption => raw := raw.(onSave := true);
        case NoCacheOption => raw := raw.(noCache := true);
        case Unknown =>
          return Err(UnknownArgument(arg));
      }
    }
    return Ok(raw);
  }

  lemma ExtendsTransitive(a: RawArgs, b: RawArgs, c: RawArgs)
    requires Extends(a, b) && Extends(b, c)
    ensures Extends(a, c)
  {
    assert c.trailingArgs[..|a.trailingArgs|] == c.trailingArgs[..|b.trailingArgs|][..|a.trailingArgs|];
  }

  /** Whatever the loop collected before is still there when it succeeds. */
  lemma {:induction false} ParseTokensExtends(args: seq<string>, raw: RawArgs)
    ensures ParseTokens(args, raw).Ok? ==> Extends(raw, ParseTokens(args, raw).value)
    decreases |args|
  {
    if args != [] {
      match TokenStep(args, raw)
      case Stop(_) =>
        if args[0] == "--" {
          var after := raw.trailingArgs + args[1..];
          assert after[..|raw.trailingArgs|] == raw.trailingArgs;
        }
      case Continue(n, next) =>
        ParseTokensExtends(args[n..], next);
        if ParseTokens(args[n..], next).Ok? {
          ExtendsTransitive(raw, next, ParseTokens(args[n..], next).value);
        }
    }
  }

  /** A leading `--all` selects every command, channel, target and package, whatever follows. */
  lemma AllSetsEveryAllFlag(rest: seq<string>, raw: RawArgs)
    ensures ParseTokens(["--all"] + rest, raw).Ok? ==>
              var r := ParseTokens(["--all"] + rest, raw).value;
              r.allCommands && r.allChannels && r.allTargets && r.allPackages
  {
    assert (["--all"] + rest)[1..] == rest;
    ParseTokensExtends(rest, raw.(allCommands := true, allChannels := true, allTargets := true, allPackages := true));
  }

  /** One loop iteration that goes on: parsing continues after the consumed arguments. */
  lemma ParseTokensContinues(args: seq<string>, raw: RawArgs)
    requires args != [] && TokenStep(args, raw).Continue?
    ensures ParseTokens(args, raw) == ParseTokens(args[TokenStep(args, raw).consumed..], TokenStep(args, raw).next)
  {
  }

  /**
   * Each `--all-X` sets its own `all` flag and changes nothing else, and
   * parsing goes on with the next argument.
   */
  lemma AllOneSetsOnlyItsFlag(option: string, rest: seq<string>, raw: RawArgs)
    requires option in {"--all-commands", "--all-channels", "--all-targets", "--all-packages"}
    ensures ParseTokens([option] + rest, raw) ==
            ParseTokens(rest, raw.(allCommands := raw.allCommands || option == "--all-commands",
                                   allChannels := raw.allChannels || option == "--all-channels",
                                   allTargets := raw.allTargets || option == "--all-targets",
                                   allPackages := raw.allPackages || option == "--all-packages"))
  {
    var args := [option] + rest;
    assert args[0] == option && args[1..] == rest;
    var t := Classify(option);
    if option == "--all-commands" {
      assert t == AllCommandsOption;
    } else if option == "--all-channels" {
      assert t == AllChannelsOption;
    } else if option == "--all-targets" {
      assert t == AllTargetsOption;
    } else {
      assert t == AllPackagesOption;
    }
    assert TokenStep(args, raw) == Continue(1, FlagStep(t, raw));
    ParseTokensContinues(args, raw);
  }

  /** `--` stops option parsing: every later argument, option-like or not, becomes a trailing argument in order. */
  lemma DashDashKeepsTheRest(rest: seq<string>, raw: RawArgs)
    ensures ParseTokens(["--"] + rest, raw) == Ok(raw.(trailingArgs := raw.trailingArgs + rest))
  {
    assert (["--"] + rest)[1..] == rest;
  }

  ghost predicate IsSuffixOf(t: seq<string>, s: seq<string>) {
    |t| <= |s| && s[|s| - |t|..] == t
  }

  /** A suffix of what is left after dropping `n` elements is a suffix of the whole. */
  lemma SuffixOfDrop(t: seq<string>, s: seq<string>, n: nat)
    requires n <= |s| && IsSuffixOf(t, s[n..])
    ensures IsSuffixOf(t, s)
  {
    assert s[|s| - |t|..] == s[n..][|s[n..]| - |t|..];
  }

  /** Starting with no trailing arguments, the trailing arguments parsed are a suffix of the input. */
  lemma {:induction false} TrailingArgsAreSuffix(args: seq<string>, raw: RawArgs)
    requires raw.trailingArgs == []
    ensures ParseTokens(args, raw).Ok? ==> IsSuffixOf(ParseTokens(args, raw).value.trailingArgs, args)
    decreases |args|
  {
    if args != [] {
      match TokenStep(args, raw)
      case Stop(result) =>
        if result.Ok? {
          assert result.value.trailingArgs == args[1..];
          SuffixOfDrop(args[1..], args, 1);
        }
      case Continue(n, next) =>
        TrailingArgsAreSuffix(args[n..], next);
        var rest := ParseTokens(args[n..], next);
        assert ParseTokens(args, raw) == rest;
        if rest.Ok? {
          SuffixOfDrop(rest.value.trailingArgs, args, n);
        }
    }
  }

  /** A value option as the last argument is an error naming that option. */
  lemma MissingValueIsError(option: string, raw: RawArgs)
    requires option in VALUE_OPTIONS
    ensures ParseTokens([option], raw) == Err(MissingArgument(option))
  {
  }

  /** An argument the loop does not know, met where an option is expected, is an error naming it. */
  lemma UnknownArgumentIsError(arg: string, rest: seq<string>, raw: RawArgs)
    requires arg !in KNOWN_ARGUMENTS
    ensures ParseTokens([arg] + rest, raw) == Err(UnknownArgument(arg))
  {
    assert ([arg] + rest)[0] == arg;
    ClassifyKnown(arg);
  }

  /** The step of a value option depends only on the option and its value, not on what follows. */
  lemma ValueStepIgnoresRest(a1: seq<string>, a2: seq<string>, raw: RawArgs)
    requires |a1| >= 2 && |a2| >= 2 && a1[0] in VALUE_OPTIONS && a1[..2] == a2[..2]
    ensures TokenStep(a1, raw) == ValueStep(Classify(a1[0]), a1[1], raw) == TokenStep(a2, raw)
  {
    assert a1[0] == a2[0] && a1[1] == a2[1];
    ClassifyKnown(a1[0]);
  }

  /** Applying a value option to what it already produced changes nothing more. */
  lemma ValueStepIdempotent(t: Token, value: string, raw: RawArgs)
    requires TakesValue(t) && ValueStep(t, value, raw).Continue?
    ensures ValueStep(t, value, ValueStep(t, value, raw).next) == ValueStep(t, value, raw)
  {
    var next := ValueStep(t, value, raw).next;
    match t
    case CommandOption =>
      var c := ParseCommand(value).value;
      assert next.commands + {c} == next.commands;
    case ChannelOption =>
      var c := ParseChannel(value).value;
      assert next.channels + {c} == next.channels;
    case TargetOption =>
      var target := ParseTarget(value);
      assert next.targets + {target} == next.targets;
    case PackageOption =>
      var p := ParsePackage(value).value;
      assert next.packages + {p} == next.packages;
  }

  /** Giving the same value twice is the same as giving it once: selections are sets. */
  lemma RepeatedValueCollapses(option: string, value: string, rest: seq<string>, raw: RawArgs)
    requires option in VALUE_OPTIONS
    ensures ParseTokens([option, value, option, value] + rest, raw) == ParseTokens([option, value] + rest, raw)
  {
    var once := [option, value] + rest;
    var twice := [option, value] + once;
    assert [option, value, option, value] + rest == twice;
    assert twice[..2] == once[..2] && twice[2..] == once && once[0] == option && once[1] == value;
    ValueStepIgnoresRest(twice, once, raw);
    var t := Classify(option);
    match ValueStep(t, value, raw)
    case Stop(_) =>
    case Continue(n, next) =>
      ParseTokensContinues(twice, raw);
      ValueStepIdempotent(t, value, raw);
      ValueStepIgnoresRest(once, once, next);
      ParseTokensContinues(once, next);
      ParseTokensContinues(once, raw);
  }

  // ---------------------------------------------------------------- selection

  /** `r` can be obtained from `s` by deleting elements. */
  ghost predicate SubsequenceOf<T>(r: seq<T>, s: seq<T>)
    decreases |s|
  {
    if r == [] then true
    else if s == [] then false
    else if r[0] == s[0] then SubsequenceOf(r[1..], s[1..])
    else SubsequenceOf(r, s[1..])
  }

  /** `all().iter().filter(|thing| set.contains(thing))`. */
  function KeepMembers<T(==, !new)>(s: seq<T>, chosen: set<T>): (r: seq<T>)
    ensures forall x :: x in r <==> x in s && x in chosen
    ensures SubsequenceOf(r, s)
    decreases |s|
  {
    if s == [] then []
    else if s[0] in chosen then [s[0]] + KeepMembers(s[1..], chosen)
    else KeepMembers(s[1..], chosen)
  }

  /**
   * The `args_field_vec!` rule: the all-flag gives the full list, nothing
   * chosen gives the default list, and otherwise the full list keeps the
   * chosen elements in its own order.
   */
  function Select<T(==, !new)>(allFlag: bool, chosen: set<T>, all: seq<T>, defaults: seq<T>): (r: seq<T>)
    ensures allFlag ==> r == all
    ensures !allFlag && chosen == {} ==> r == defaults
    ensures !allFlag && chosen != {} ==>
              (forall x :: x in r <==> x in all && x in chosen) && SubsequenceOf(r, all)
  {
    if allFlag then all
    else if chosen == {} then defaults
    else KeepMembers(all, chosen)
  }

  datatype ParsedArgs = ParsedArgs(
    commands: seq<CargoCommand>,
    channels: seq<Channel>,
    targets: seq<Target>,
    packages: seq<Package>,
    onSave: bool,
    noCache: bool,
    trailingArgs: seq<string>)

  /** The four selections, the two flags and the trailing arguments of a parsed command line. */
  function FromRaw(raw: RawArgs): (p: ParsedArgs)
    ensures p.onSave == raw.onSave && p.noCache == raw.noCache && p.trailingArgs == raw.trailingArgs
    ensures p.commands == Select(raw.allCommands, raw.commands, AllCommands(), DefaultCommands())
    ensures p.channels == Select(raw.allChannels, raw.channels, AllChannels(), DefaultChannels())
    ensures p.targets == Select(raw.allTargets, raw.targets, AllTargets(), DefaultTargets())
    ensures p.packages == Select(raw.allPackages, raw.packages, AllPackages(), DefaultPackages())
    ensures forall c :: c in p.commands ==> c in AllCommands()
    ensures forall c :: c in p.channels ==> c in AllChannels()
    ensures forall t :: t in p.targets ==> t in AllTargets()
    ensures forall q :: q in p.packages ==> q in AllPackages()
  {
    ParsedArgs(
      Select(raw.allCommands, raw.commands, AllCommands(), DefaultCommands()),
      Select(raw.allChannels, raw.channels, AllChannels(), DefaultChannels()),
      Select(raw.allTargets, raw.targets, AllTargets(), DefaultTargets()),
      Select(raw.allPackages, raw.packages, AllPackages(), DefaultPackages()),
      raw.onSave,
      raw.noCache,
      raw.trailingArgs)
  }

  /** `Native` and `Custom` targets are never selected: they are not in `all_targets`. */
  lemma NativeAndCustomNeverSelected(raw: RawArgs)
    ensures forall t :: t in FromRaw(raw).targets ==> !t.Native? && !t.Custom?
  {
  }

  /**
   * `ParsedArgs::try_parse`: any error of the token loop is returned as is;
   * otherwise the selections are made. Every selected value is one of the
   * full list, and the trailing arguments are a suffix of the input.
   */
  method TryParseArgs(args: seq<string>) returns (r: Result<ParsedArgs, string>)
    ensures r.Ok? <==> ParseTokens(args, DefaultRawArgs()).Ok?
    ensures r.Err? ==> r.error == ParseTokens(args, DefaultRawArgs()).error
    ensures r.Ok? ==> r.value == FromRaw(ParseTokens(args, DefaultRawArgs()).value)
    ensures r.Ok? ==> IsSuffixOf(r.value.trailingArgs, args)
    ensures r.Ok? ==> forall t :: t in r.value.targets ==> !t.Native? && !t.Custom?
  {
    var raw := TryParseRawArgs(args);
    if raw.Err? {
      return Err(raw.error);
    }
    TrailingArgsAreSuffix(args, DefaultRawArgs());
    r := Ok(FromRaw(raw.value));
  }
}
