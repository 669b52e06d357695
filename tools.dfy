/**
 * The eight tool handlers of main.py. Each handler builds the argument vector
 * `cmd` of one `terraform` subcommand, runs it in the call's
 * `working_dir`, and turns the outcome into a ToolCallStatus.
 *
 * Argv is the specification of the vector every handler builds; the handler
 * methods grow `cmd` the way the handlers do and are proved to spawn exactly
 * Argv of their parameters.
 */
module TerraformTools {
  import opened Wrappers
  import opened Process

  /** A Python dict with string values, in its iteration (insertion) order. */
  type Entries = seq<(string, string)>

  /**
   * The parameters each handler reads, after `.get` has put in its default:
   * an absent `backend_config` or `var` is the empty dict, an absent
   * `auto_approve` is false, an absent `var_file` or `plan_file` is None.
   */
  datatype ToolParams =
    | Init(backendConfig: Entries)
    | Plan(varFile: Option<string>, vars: Entries)
    | Apply(autoApprove: bool, varFile: Option<string>, vars: Entries)
    | Destroy(autoApprove: bool, varFile: Option<string>, vars: Entries)
    | Validate
    | Show(planFile: Option<string>)
    | WorkspaceList
    | WorkspaceSelect(name: string)

  /** What a handler returns to the tool framework. */
  datatype ToolCallStatus = ToolCallStatus(status: string, output: string)

  /** Python truthiness of an optional string: present and not empty. */
  predicate Truthy(s: Option<string>) {
    s.Some? && s.value != ""
  }

  /** The token `f"{key}={value}"`: the key, an '=' right after it, then the value. */
  function KeyValue(key: string, value: string): (r: string)
    ensures |r| == |key| + 1 + |value| && r[|key|] == '='
    ensures r[..|key|] == key && r[|key| + 1..] == value
  {
    key + "=" + value
  }

  /**
   * The tokens that one `cmd.extend([flag, f"{key}={value}"])` per entry adds,
   * two per entry (PairFlagsAt says which two).
   */
  function PairFlags(flag: string, entries: Entries): (r: seq<string>)
    ensures |r| == 2 * |entries|
  {
    if entries == [] then []
    else [flag, KeyValue(entries[0].0, entries[0].1)] + PairFlags(flag, entries[1..])
  }

  /** Entry j becomes the flag at index 2j and its assignment at index 2j + 1. */
  lemma {:induction false} PairFlagsAt(flag: string, entries: Entries, j: nat)
    requires j < |entries|
    ensures PairFlags(flag, entries)[2 * j] == flag
    ensures PairFlags(flag, entries)[2 * j + 1] == KeyValue(entries[j].0, entries[j].1)
  {
    if j > 0 {
      PairFlagsAt(flag, entries[1..], j - 1);
      assert entries[1..][j - 1] == entries[j];
    }
  }

  /** The pairs of two dicts' entries, one after the other, are the pairs of the entries joined. */
  lemma {:induction false} PairFlagsAppend(flag: string, a: Entries, b: Entries)
    ensures PairFlags(flag, a + b) == PairFlags(flag, a) + PairFlags(flag, b)
  {
    if a == [] {
      assert a + b == b;
    } else {
      assert (a + b)[1..] == a[1..] + b;
      PairFlagsAppend(flag, a[1..], b);
    }
  }

  /** Regrouping the joins of a vector built in four steps. */
  lemma Regroup(head: seq<string>, a: seq<string>, b: seq<string>, c: seq<string>)
    ensures head + a + b + c == head + (a + (b + c))
    ensures head + (a + (b + c)) == (head + (a + b)) + c
  {
  }

  /** `cmd.append("-auto-approve")` under `if auto_approve:`. */
  function ApprovalFlags(autoApprove: bool): seq<string> {
    if autoApprove then ["-auto-approve"] else []
  }

  /** `cmd.extend(["-var-file", var_file])` under `if var_file:`. */
  function VarFileFlags(varFile: Option<string>): seq<string> {
    if Truthy(varFile) then ["-var-file", varFile.value] else []
  }

  /** What plan, apply and destroy add after `if var_file:`: the var-file pair, then the var pairs. */
  function VarOptions(varFile: Option<string>, vars: Entries): seq<string> {
    VarFileFlags(varFile) + PairFlags("-var", vars)
  }

  /** What apply and destroy add after their subcommand. */
  function ChangeOptions(autoApprove: bool, varFile: Option<string>, vars: Entries): seq<string> {
    ApprovalFlags(autoApprove) + VarOptions(varFile, vars)
  }

  /** The subcommand words of each tool, as the tool table lists them. */
  function Subcommand(call: ToolParams): seq<string> {
    match call
    case Init(_) => ["init"]
    case Plan(_, _) => ["plan"]
    case Apply(_, _, _) => ["apply"]
    case Destroy(_, _, _) => ["destroy"]
    case Validate => ["validate"]
    case Show(_) => ["show"]
    case WorkspaceList => ["workspace", "list"]
    case WorkspaceSelect(_) => ["workspace", "select"]
  }

  /** The argument vector each handler passes to the process. */
  function Argv(call: ToolParams): (r: seq<string>)
    ensures 1 + |Subcommand(call)| <= |r|
    ensures r[..1 + |Subcommand(call)|] == ["terraform"] + Subcommand(call)
  {
    match call
    case Init(backendConfig) =>
      ["terraform", "init"] + PairFlags("-backend-config", backendConfig)
    case Plan(varFile, vars) =>
      ["terraform", "plan"] + VarOptions(varFile, vars)
    case Apply(autoApprove, varFile, vars) =>
      ["terraform", "apply"] + ChangeOptions(autoApprove, varFile, vars)
    case Destroy(autoApprove, varFile, vars) =>
      ["terraform", "destroy"] + ChangeOptions(autoApprove, varFile, vars)
    case Validate =>
      ["terraform", "validate"]
    case Show(planFile) =>
      ["terraform", "show"] + (if Truthy(planFile) then [planFile.value] else [])
    case WorkspaceList =>
      ["terraform", "workspace", "list"]
    case WorkspaceSelect(name) =>
      ["terraform", "workspace", "select", name]
  }

  /**
   * The try/except around `subprocess.run`: a zero exit completes with the
   * captured stdout; CalledProcessError fails with "Error: " and the captured
   * stderr, and the partial stdout is dropped.
   */
  function StatusOf(outcome: Outcome): (r: ToolCallStatus)
    ensures r.status == "completed" <==> outcome.Completed?
    ensures r.status == "failed" <==> outcome.CalledProcessError?
    ensures outcome.Completed? ==> r.output == outcome.stdout
    ensures outcome.CalledProcessError? ==>
              |"Error: "| <= |r.output| && r.output[..|"Error: "|] == "Error: " && r.output[|"Error: "|..] == outcome.stderr
  {
    match outcome
    case Completed(stdout, _) => ToolCallStatus("completed", stdout)
    case CalledProcessError(_, stderr) => ToolCallStatus("failed", "Error: " + stderr)
  }

  /** The loop `for key, value in entries.items(): cmd.extend([flag, f"{key}={value}"])`. */
  method ExtendPairs(cmd: seq<string>, flag: string, entries: Entries) returns (extended: seq<string>)
    ensures extended == cmd + PairFlags(flag, entries)
  {
    extended := cmd;
    for i := 0 to |entries|
      invariant extended == cmd + PairFlags(flag, entries[..i])
    {
      var (key, value) := entries[i];
      assert entries[..i + 1] == entries[..i] + [entries[i]];
      PairFlagsAppend(flag, entries[..i], [entries[i]]);
      extended := extended + [flag, KeyValue(key, value)];
    }
    assert entries[..|entries|] == entries;
  }

  method HandleInit(workingDir: Option<string>, backendConfig: Entries, run: Runner)
    returns (spawned: Invocation, status: ToolCallStatus)
    ensures spawned == Invocation(Argv(Init(backendConfig)), workingDir)
    ensures status == StatusOf(run(spawned))
  {
    var cmd := ["terraform", "init"];
    cmd := ExtendPairs(cmd, "-backend-config", backendConfig);
    spawned := Invocation(cmd, workingDir);
    status := StatusOf(run(spawned));
  }

  method HandlePlan(workingDir: Option<string>, varFile: Option<string>, vars: Entries, run: Runner)
    returns (spawned: Invocation, status: ToolCallStatus)
    ensures spawned == Invocation(Argv(Plan(varFile, vars)), workingDir)
    ensures status == StatusOf(run(spawned))
  {
    var cmd := ["terraform", "plan"];
    if Truthy(varFile) {
      cmd := cmd + ["-var-file", varFile.value];
    }
    assert cmd == ["terraform", "plan"] + VarFileFlags(varFile);
    cmd := ExtendPairs(cmd, "-var", vars);
    assert cmd == ["terraform", "plan"] + VarOptions(varFile, vars);
    spawned := Invocation(cmd, workingDir);
    status := StatusOf(run(spawned));
  }

  method HandleApply(workingDir: Option<string>, autoApprove: bool, varFile: Option<string>, vars: Entries, run: Runner)
    returns (spawned: Invocation, status: ToolCallStatus)
    ensures spawned == Invocation(Argv(Apply(autoApprove, varFile, vars)), workingDir)
    ensures status == StatusOf(run(spawned))
  {
    var cmd := ["terraform", "apply"];
    if autoApprove {
      cmd := cmd + ["-auto-approve"];
    }
    if Truthy(varFile) {
      cmd := cmd + ["-var-file", varFile.value];
    }
    assert cmd == ["terraform", "apply"] + ApprovalFlags(autoApprove) + VarFileFlags(varFile);
    cmd := ExtendPairs(cmd, "-var", vars);
    Regroup(["terraform", "apply"], ApprovalFlags(autoApprove), VarFileFlags(varFile), PairFlags("-var", vars));
    assert cmd == ["terraform", "apply"] + ChangeOptions(autoApprove, varFile, vars);
    spawned := Invocation(cmd, workingDir);
    status := StatusOf(run(spawned));
  }

  method HandleDestroy(workingDir: Option<string>, autoApprove: bool, varFile: Option<string>, vars: Entries, run: Runner)
    returns (spawned: Invocation, status: ToolCallStatus)
    ensures spawned == Invocation(Argv(Destroy(autoApprove, varFile, vars)), workingDir)
    ensures status == StatusOf(run(spawned))
  {
    var cmd := ["terraform", "destroy"];
    if autoApprove {
      cmd := cmd + ["-auto-approve"];
    }
    if Truthy(varFile) {
      cmd := cmd + ["-var-file", varFile.value];
    }
    assert cmd == ["terraform", "destroy"] + ApprovalFlags(autoApprove) + VarFileFlags(varFile);
    cmd := ExtendPairs(cmd, "-var", vars);
    Regroup(["terraform", "destroy"], ApprovalFlags(autoApprove), VarFileFlags(varFile), PairFlags("-var", vars));
    assert cmd == ["terraform", "destroy"] + ChangeOptions(autoApprove, varFile, vars);
    spawned := Invocation(cmd, workingDir);
    status := StatusOf(run(spawned));
  }

  method HandleValidate(workingDir: Option<string>, run: Runner)
    returns (spawned: Invocation, status: ToolCallStatus)
    ensures spawned == Invocation(Argv(Validate), workingDir)
    ensures status == StatusOf(run(spawned))
  {
    spawned := Invocation(["terraform", "validate"], workingDir);
    status := StatusOf(run(spawned));
  }

  method HandleShow(workingDir: Option<string>, planFile: Option<string>, run: Runner)
    returns (spawned: Invocation, status: ToolCallStatus)
    ensures spawned == Invocation(Argv(Show(planFile)), workingDir)
    ensures status == StatusOf(run(spawned))
  {
    var cmd := ["terraform", "show"];
    if Truthy(planFile) {
      cmd := cmd + [planFile.value];
    }
    spawned := Invocation(cmd, workingDir);
    status := StatusOf(run(spawned));
  }

  method HandleWorkspaceList(workingDir: Option<string>, run: Runner)
    returns (spawned: Invocation, status: ToolCallStatus)
    ensures spawned == Invocation(Argv(WorkspaceList), workingDir)
    ensures status == StatusOf(run(spawned))
  {
    spawned := Invocation(["terraform", "workspace", "list"], workingDir);
    status := StatusOf(run(spawned));
  }

  /** The workspace name is passed on unchecked, empty or not. */
  method HandleWorkspaceSelect(workingDir: Option<string>, name: string, run: Runner)
    returns (spawned: Invocation, status: ToolCallStatus)
    ensures spawned == Invocation(Argv(WorkspaceSelect(name)), workingDir)
    ensures status == StatusOf(run(spawned))
  {
    spawned := Invocation(["terraform", "workspace", "select", name], workingDir);
    status := StatusOf(run(spawned));
  }
}
