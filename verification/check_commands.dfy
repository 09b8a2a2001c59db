/**
 * The cargo subcommands the `check` tool drives, the `RUSTFLAGS` each one
 * gets on each channel, and the fixed prefix of every cargo invocation.
 */
module CheckCommands {
  import opened Wrappers
  import opened CheckData

  datatype CargoCommand = Check | Clippy | Test

  /** `all_commands`: three distinct subcommands. */
  function AllCommands(): (r: seq<CargoCommand>)
    ensures |r| == 3 && r[0] != r[1] && r[1] != r[2] && r[0] != r[2]
  {
    [Check, Clippy, Test]
  }

  /** `all_commands` lists every subcommand. */
  lemma AllCommandsComplete()
    ensures forall c: CargoCommand :: c in AllCommands()
  {
    forall c: CargoCommand
      ensures c in AllCommands()
    {
      match c
      case Check =>
      case Clippy =>
      case Test =>
    }
  }

  /** `default_commands`: only clippy, which is one of `all_commands`. */
  function DefaultCommands(): (r: seq<CargoCommand>)
    ensures r == [Clippy]
    ensures forall c :: c in r ==> c in AllCommands()
  {
    [Clippy]
  }

  /** The cargo subcommand name `base_command` passes to `cargo hack`. */
  function CommandName(c: CargoCommand): (r: string)
    ensures |r| > 0
  {
    match c
    case Check => "check"
    case Clippy => "clippy"
    case Test => "test"
  }

  /** `CargoCommand::parse`: exactly the three subcommand names; anything else is an error naming it. */
  function ParseCommand(s: string): (r: Result<CargoCommand, string>)
    ensures r.Ok? <==> s == "check" || s == "clippy" || s == "test"
    ensures r.Ok? ==> CommandName(r.value) == s
    ensures r.Err? ==> r.error == "Unknown cargo command name: " + s
  {
    match s
    case "check" => Ok(Check)
    case "clippy" => Ok(Clippy)
    case "test" => Ok(Test)
    case _ => Err("Unknown cargo command name: " + s)
  }

  /** Parsing a subcommand's name gives the subcommand back. */
  lemma CommandNameRoundTrip(c: CargoCommand)
    ensures ParseCommand(CommandName(c)) == Ok(c)
  {
  }

  /** The flags clippy gets on nightly: polonius, the unstable lint features, and the lints they enable. */
  const CLIPPY_NIGHTLY_FLAGS: string :=
    "-Zpolonius "
    + "-Zcrate-attr=feature("
    + "strict_provenance_lints,"
    + "multiple_supertrait_upcastable,"
    + "must_not_suspend,"
    + "non_exhaustive_omitted_patterns_lint,"
    + "supertrait_item_shadowing,"
    + "unqualified_local_imports"
    + ") "
    + "-Wfuzzy_provenance_casts "
    + "-Wlossy_provenance_casts "
    + "-Wmultiple_supertrait_upcastable "
    + "-Wmust_not_suspend "
    + "-Wnon_exhaustive_omitted_patterns "
    + "-Wsupertrait_item_shadowing_definition "
    + "-Wsupertrait_item_shadowing_usage "
    + "-Wunqualified_local_imports"

  /**
   * `rust_flags`: nothing on stable; on nightly, `-Zpolonius` for check and
   * test, and for clippy `-Zpolonius` followed by the unstable lint flags.
   */
  function RustFlags(c: CargoCommand, channel: Channel): (r: string)
    ensures channel == Stable ==> r == ""
    ensures channel == Nightly && c != Clippy ==> r == "-Zpolonius"
    ensures channel == Nightly && c == Clippy ==> r == CLIPPY_NIGHTLY_FLAGS
  {
    match (c, channel)
    case (_, Stable) => ""
    case (Check, Nightly) => "-Zpolonius"
    case (Test, Nightly) => "-Zpolonius"
    case (Clippy, Nightly) => CLIPPY_NIGHTLY_FLAGS
  }

  /** On nightly every subcommand runs with polonius enabled, and only nightly sets any flag. */
  lemma NightlyFlagsStartWithPolonius(c: CargoCommand, channel: Channel)
    ensures RustFlags(c, channel) != "" <==> channel == Nightly
    ensures channel == Nightly ==>
              |RustFlags(c, channel)| >= 10 && RustFlags(c, channel)[..10] == "-Zpolonius"
  {
    if channel == Nightly && c == Clippy {
      assert CLIPPY_NIGHTLY_FLAGS[..10] == "-Zpolonius";
    }
  }

  /** A `std::process::Command` as far as the model needs it: program, environment, arguments. */
  datatype Command = Command(program: string, env: map<string, string>, args: seq<string>)

  /** The number of arguments before `hack`: one `+nightly` toolchain override on nightly. */
  function ToolchainArgs(channel: Channel): (n: nat)
    ensures n <= 1
    ensures n == 1 <==> channel == Nightly
  {
    if channel == Nightly then 1 else 0
  }

  /**
   * `base_command`: `cargo` with `RUSTFLAGS` set, and the arguments
   * `+nightly` (nightly only), `hack <subcommand> --feature-powerset`,
   * `--color always`, appended in that order.
   */
  method BaseCommand(c: CargoCommand, channel: Channel) returns (command: Command)
    ensures command.program == "cargo"
    ensures command.env == map["RUSTFLAGS" := RustFlags(c, channel)]
    ensures |command.args| == ToolchainArgs(channel) + 5
    ensures channel == Nightly ==> command.args[0] == "+nightly"
    ensures command.args[ToolchainArgs(channel)..]
              == ["hack", CommandName(c), "--feature-powerset", "--color", "always"]
    ensures ParseCommand(command.args[ToolchainArgs(channel) + 1]) == Ok(c)
  {
    command := Command("cargo", map[], []);
    command := command.(env := command.env["RUSTFLAGS" := RustFlags(c, channel)]);
    match channel {
      case Stable =>
      case Nightly => command := command.(args := command.args + ["+nightly"]);
    }
    match c {
      case Check => command := command.(args := command.args + ["hack", "check", "--feature-powerset"]);
      case Clippy => command := command.(args := command.args + ["hack", "clippy", "--feature-powerset"]);
      case Test => command := command.(args := command.args + ["hack", "test", "--feature-powerset"]);
    }
    command := command.(args := command.args + ["--color", "always"]);
    CommandNameRoundTrip(c);
  }
}
