/**
 * mcp/server.py: the Server scaffold and its run_terraform helper. The helper
 * refuses a missing terraform directory before building anything, builds
 * `terraform <command>` followed by one `-key value` pair per argument whose
 * value is not None, runs it in the configured directory, and reports the
 * outcome as a {success, output, error} record.
 */
module McpServer {
  import opened Wrappers
  import opened Process
  import TerraformTools

  /** mcp/config.py's Config. */
  datatype Config = Config(host: string, port: int, terraformDir: string, debug: bool)

  /**
   * The `args` dict in iteration order; a value is None or the text `str`
   * makes of it.
   */
  type Args = seq<(string, Option<string>)>

  /** The returned dict: "success", "output" and "error". */
  datatype RunResult = RunResult(success: bool, output: string, error: Option<string>)

  /** The exception raised before anything is run. */
  datatype RunError = FileNotFoundError(message: string)

  /** The arguments that have a value, in their order. */
  function Present(args: Args): (r: seq<(string, string)>)
    ensures |r| <= |args|
  {
    if args == [] then []
    else if args[0].1.Some? then [(args[0].0, args[0].1.value)] + Present(args[1..])
    else Present(args[1..])
  }

  /** The arguments kept are exactly those whose value is not None. */
  lemma {:induction false} PresentMembers(args: Args)
    ensures forall p :: p in Present(args) <==> (p.0, Some(p.1)) in args
  {
    if args != [] {
      PresentMembers(args[1..]);
      assert forall a :: a in args <==> a == args[0] || a in args[1..];
    }
  }

  /** Filtering keeps order: the arguments of two dicts joined are filtered part by part. */
  lemma {:induction false} PresentAppend(a: Args, b: Args)
    ensures Present(a + b) == Present(a) + Present(b)
  {
    if a == [] {
      assert a + b == b;
    } else {
      assert (a + b)[0] == a[0] && (a + b)[1..] == a[1..] + b;
      PresentAppend(a[1..], b);
    }
  }

  /** An argument whose value is None, wherever it stands, changes nothing. */
  lemma NoneArgumentIgnored(a: Args, key: string, b: Args)
    ensures Present(a + [(key, None)] + b) == Present(a + b)
  {
    PresentAppend(a + [(key, None)], b);
    PresentAppend(a, [(key, None)]);
    PresentAppend(a, b);
    var skipped: Args := [(key, None)];
    assert Present(skipped) == [] by {
      assert skipped[1..] == [];
    }
  }

  /** The tokens `cmd.extend([f"-{key}", str(value)])` adds for each argument that is not None. */
  function OptionFlags(args: Args): (r: seq<string>)
    ensures |r| == 2 * |Present(args)|
  {
    if args == [] then []
    else match args[0].1
      case Some(value) => ["-" + args[0].0, value] + OptionFlags(args[1..])
      case None => OptionFlags(args[1..])
  }

  /** The j-th argument with a value gives the tokens at 2j and 2j + 1. */
  lemma {:induction false} OptionFlagsAt(args: Args, j: nat)
    requires j < |Present(args)|
    ensures OptionFlags(args)[2 * j] == "-" + Present(args)[j].0
    ensures OptionFlags(args)[2 * j + 1] == Present(args)[j].1
  {
    var rest := args[1..];
    if args[0].1.None? {
      assert Present(args) == Present(rest) && OptionFlags(args) == OptionFlags(rest);
      OptionFlagsAt(rest, j);
    } else {
      var head := (args[0].0, args[0].1.value);
      assert Present(args) == [head] + Present(rest);
      assert OptionFlags(args) == ["-" + args[0].0, args[0].1.value] + OptionFlags(rest);
      if j > 0 {
        OptionFlagsAt(rest, j - 1);
      }
    }
  }

  lemma {:induction false} OptionFlagsAppend(a: Args, b: Args)
    ensures OptionFlags(a + b) == OptionFlags(a) + OptionFlags(b)
  {
    if a == [] {
      assert a + b == b;
    } else {
      assert (a + b)[0] == a[0] && (a + b)[1..] == a[1..] + b;
      OptionFlagsAppend(a[1..], b);
    }
  }

  /** One more argument adds its pair if its value is not None, and nothing otherwise. */
  lemma OptionFlagsStep(args: Args, i: nat)
    requires i < |args|
    ensures OptionFlags(args[..i + 1]) ==
              OptionFlags(args[..i]) + (if args[i].1.Some? then ["-" + args[i].0, args[i].1.value] else [])
  {
    var last: Args := [args[i]];
    assert args[..i + 1] == args[..i] + last;
    OptionFlagsAppend(args[..i], last);
    assert last[1..] == [];
  }

  /** The arguments of an optional dict: None reads as no arguments. */
  function Arguments(args: Option<Args>): Args {
    if args.Some? then args.value else []
  }

  /** The vector run_terraform spawns. */
  function ServerArgv(command: string, args: Option<Args>): (r: seq<string>)
    ensures 2 <= |r| && r[..2] == ["terraform", command]
    ensures |r| == 2 + 2 * |Present(Arguments(args))|
  {
    ["terraform", command] + (if args.Some? && args.value != [] then OptionFlags(args.value) else [])
  }

  /**
   * The vector is `terraform <command>` alone when args is None or empty;
   * otherwise the j-th argument with a value stands at 2 + 2j as `-key` and at
   * 3 + 2j as its value, so every token at an even index from 2 on is a flag.
   */
  lemma ServerArgvShape(command: string, args: Option<Args>)
    ensures args.None? || args == Some([]) ==> ServerArgv(command, args) == ["terraform", command]
    ensures var r, p := ServerArgv(command, args), Present(Arguments(args));
      forall j :: 0 <= j < |p| ==> r[2 + 2 * j] == "-" + p[j].0 && r[3 + 2 * j] == p[j].1
    ensures var r := ServerArgv(command, args);
      forall i :: 2 <= i < |r| && i % 2 == 0 ==> r[i] != [] && r[i][0] == '-'
  {
    var r, p := ServerArgv(command, args), Present(Arguments(args));
    var flags := OptionFlags(Arguments(args));
    assert r == ["terraform", command] + flags;
    forall j | 0 <= j < |p|
      ensures r[2 + 2 * j] == "-" + p[j].0 && r[3 + 2 * j] == p[j].1
    {
      OptionFlagsAt(Arguments(args), j);
    }
    forall i | 2 <= i < |r| && i % 2 == 0
      ensures r[i] != [] && r[i][0] == '-'
    {
      var j := (i - 2) / 2;
      assert i == 2 + 2 * j;
      OptionFlagsAt(Arguments(args), j);
    }
  }

  /**
   * The try/except around `subprocess.run`: success carries stdout and no
   * error; CalledProcessError carries the partial stdout and the stderr.
   */
  function ResultOf(outcome: Outcome): (r: RunResult)
    ensures r.success <==> outcome.Completed?
    ensures r.error.None? <==> r.success
    ensures r.output == outcome.stdout
    ensures !r.success ==> r.error == Some(outcome.stderr)
  {
    match outcome
    case Completed(stdout, _) => RunResult(true, stdout, None)
    case CalledProcessError(stdout, stderr) => RunResult(false, stdout, Some(stderr))
  }

  /**
   * The two variants agree on success and on the error text, and differ in
   * what they keep of a failed run's stdout: main.py drops it, run_terraform
   * keeps it.
   */
  lemma VariantsAgree(outcome: Outcome)
    ensures TerraformTools.StatusOf(outcome).status == "completed" <==> ResultOf(outcome).success
    ensures ResultOf(outcome).error.Some? ==>
              TerraformTools.StatusOf(outcome).output == "Error: " + ResultOf(outcome).error.value
    ensures outcome.Completed? ==> TerraformTools.StatusOf(outcome).output == ResultOf(outcome).output
    ensures outcome.CalledProcessError? ==>
              TerraformTools.StatusOf(outcome) == TerraformTools.StatusOf(CalledProcessError("", outcome.stderr))
  {
  }

  class Server {
    var config: Config

    /** The logging set-up of the constructor is not modelled. */
    constructor (config: Config)
      ensures this.config == config
    {
      this.config := config;
    }

    /**
     * `spawned` is the process run_terraform starts, if it starts one; the
     * existence test on the terraform directory is the `pathExists` parameter.
     */
    method RunTerraform(command: string, args: Option<Args>, pathExists: string -> bool, run: Runner)
      returns (spawned: Option<Invocation>, result: Result<RunResult, RunError>)
      ensures !pathExists(config.terraformDir) ==>
                spawned == None &&
                result == Failure(FileNotFoundError("Terraform directory not found: " + config.terraformDir))
      ensures pathExists(config.terraformDir) ==>
                spawned == Some(Invocation(ServerArgv(command, args), Some(config.terraformDir))) &&
                result == Success(ResultOf(run(spawned.value)))
    {
      if !pathExists(config.terraformDir) {
        return None, Failure(FileNotFoundError("Terraform directory not found: " + config.terraformDir));
      }
      var cmd := ["terraform", command];
      if args.Some? && args.value != [] {
        var entries := args.value;
        for i := 0 to |entries|
          invariant cmd == ["terraform", command] + OptionFlags(entries[..i])
        {
          var (key, value) := entries[i];
          OptionFlagsStep(entries, i);
          if value.Some? {
            cmd := cmd + ["-" + key, value.value];
          }
        }
        assert entries[..|entries|] == entries;
      } else {
        assert cmd == ["terraform", command] + [];
      }
      spawned := Some(Invocation(cmd, Some(config.terraformDir)));
      result := Success(ResultOf(run(spawned.value)));
    }
  }
}
