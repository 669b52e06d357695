/**
 * A left inverse of Argv over the handlers' own token order: the subcommand
 * words, then an optional `-auto-approve`, an optional `-var-file <path>`, and
 * `<flag> key=value` pairs split at their first '='. No other order is
 * accepted. Decoding the vector of a call gives the call back, with a falsy
 * var_file or plan_file read as absent, so Argv is injective up to Normalize
 * as long as no dict key holds an '='.
 */
module ToolArgvDecode {
  import opened Wrappers
  import opened TerraformTools

  /** Splits an assignment at its first '='; None when there is no '='. */
  function SplitAssignment(s: string): (r: Option<(string, string)>)
    ensures r.None? <==> '=' !in s
    ensures r.Some? ==> '=' !in r.value.0 && r.value.0 + "=" + r.value.1 == s
  {
    if s == [] then None
    else if s[0] == '=' then Some(([], s[1..]))
    else match SplitAssignment(s[1..])
      case None => None
      case Some(kv) =>
        assert s == [s[0]] + s[1..];
        Some(([s[0]] + kv.0, kv.1))
  }

  /** An '='-free key is read back whole from its assignment. */
  lemma {:induction false} SplitKeyValue(key: string, value: string)
    requires '=' !in key
    ensures SplitAssignment(KeyValue(key, value)) == Some((key, value))
  {
    if key != [] {
      assert KeyValue(key, value)[1..] == KeyValue(key[1..], value);
      assert KeyValue(key, value)[0] == key[0];
      SplitKeyValue(key[1..], value);
      assert [key[0]] + key[1..] == key;
    }
  }

  /** No key of the dict holds an '='. */
  predicate PlainKeys(entries: Entries) {
    forall j :: 0 <= j < |entries| ==> '=' !in entries[j].0
  }

  /** Reads `flag assignment` pairs to the end of the vector. */
  function DecodePairs(flag: string, tokens: seq<string>): Option<Entries>
    decreases |tokens|
  {
    if tokens == [] then Some([])
    else if |tokens| < 2 || tokens[0] != flag then None
    else
      match (SplitAssignment(tokens[1]), DecodePairs(flag, tokens[2..]))
      case (Some(kv), Some(rest)) => Some([kv] + rest)
      case _ => None
  }

  lemma {:induction false} DecodePairsOfPairFlags(flag: string, entries: Entries)
    requires PlainKeys(entries)
    ensures DecodePairs(flag, PairFlags(flag, entries)) == Some(entries)
  {
    if entries != [] {
      var tokens := PairFlags(flag, entries);
      PairFlagsAt(flag, entries, 0);
      SplitKeyValue(entries[0].0, entries[0].1);
      assert tokens[2..] == PairFlags(flag, entries[1..]);
      assert PlainKeys(entries[1..]) by {
        forall j | 0 <= j < |entries[1..]|
          ensures '=' !in entries[1..][j].0
        {
          assert entries[1..][j] == entries[j + 1];
        }
      }
      DecodePairsOfPairFlags(flag, entries[1..]);
      assert [entries[0]] + entries[1..] == entries;
    }
  }

  /** An optional `-var-file <path>` at the front, and what follows it. */
  function SplitVarFile(tokens: seq<string>): (Option<string>, seq<string>) {
    if 2 <= |tokens| && tokens[0] == "-var-file" then (Some(tokens[1]), tokens[2..])
    else (None, tokens)
  }

  /** `[-var-file <path>] (-var key=value)*` */
  function DecodeVarOptions(tokens: seq<string>): Option<(Option<string>, Entries)> {
    var (varFile, rest) := SplitVarFile(tokens);
    match DecodePairs("-var", rest)
    case Some(vars) => Some((varFile, vars))
    case None => None
  }

  /** `[-auto-approve] [-var-file <path>] (-var key=value)*` */
  function DecodeChangeOptions(tokens: seq<string>): Option<(bool, Option<string>, Entries)> {
    var autoApprove := 1 <= |tokens| && tokens[0] == "-auto-approve";
    match DecodeVarOptions(if autoApprove then tokens[1..] else tokens)
    case Some((varFile, vars)) => Some((autoApprove, varFile, vars))
    case None => None
  }

  /** The tool call a vector stands for, if any. */
  function Decode(argv: seq<string>): Option<ToolParams> {
    if |argv| < 2 || argv[0] != "terraform" then None
    else DecodeSubcommand(argv[1], argv[2..])
  }

  /** The tool call of the words after `terraform`. */
  function DecodeSubcommand(subcommand: string, rest: seq<string>): Option<ToolParams> {
    match subcommand
    case "init" =>
      (match DecodePairs("-backend-config", rest)
       case Some(backendConfig) => Some(Init(backendConfig))
       case None => None)
    case "plan" =>
      (match DecodeVarOptions(rest)
       case Some((varFile, vars)) => Some(Plan(varFile, vars))
       case None => None)
    case "apply" =>
      (match DecodeChangeOptions(rest)
       case Some((autoApprove, varFile, vars)) => Some(Apply(autoApprove, varFile, vars))
       case None => None)
    case "destroy" =>
      (match DecodeChangeOptions(rest)
       case Some((autoApprove, varFile, vars)) => Some(Destroy(autoApprove, varFile, vars))
       case None => None)
    case "validate" =>
      if rest == [] then Some(Validate) else None
    case "show" =>
      if rest == [] then Some(Show(None))
      else if |rest| == 1 then Some(Show(Some(rest[0])))
      else None
    case "workspace" =>
      if rest == ["list"] then Some(WorkspaceList)
      else if |rest| == 2 && rest[0] == "select" then Some(WorkspaceSelect(rest[1]))
      else None
    case _ => None
  }

  /** A falsy optional string reads as absent. */
  function Normalized(s: Option<string>): Option<string> {
    if Truthy(s) then s else None
  }

  /** The call as its vector records it: falsy var_file and plan_file are dropped. */
  function Normalize(call: ToolParams): ToolParams {
    match call
    case Plan(varFile, vars) => Plan(Normalized(varFile), vars)
    case Apply(autoApprove, varFile, vars) => Apply(autoApprove, Normalized(varFile), vars)
    case Destroy(autoApprove, varFile, vars) => Destroy(autoApprove, Normalized(varFile), vars)
    case Show(planFile) => Show(Normalized(planFile))
    case _ => call
  }

  /** Every dict of the call has '='-free keys. */
  predicate WellKeyed(call: ToolParams) {
    match call
    case Init(backendConfig) => PlainKeys(backendConfig)
    case Plan(_, vars) => PlainKeys(vars)
    case Apply(_, _, vars) => PlainKeys(vars)
    case Destroy(_, _, vars) => PlainKeys(vars)
    case _ => true
  }

  lemma DecodeVarFlags(varFile: Option<string>, vars: Entries)
    requires PlainKeys(vars)
    ensures DecodeVarOptions(VarOptions(varFile, vars)) == Some((Normalized(varFile), vars))
  {
    var pairs := PairFlags("-var", vars);
    DecodePairsOfPairFlags("-var", vars);
    if Truthy(varFile) {
      assert (VarFileFlags(varFile) + pairs)[2..] == pairs;
    } else {
      assert VarFileFlags(varFile) + pairs == pairs;
      if pairs != [] {
        PairFlagsAt("-var", vars, 0);
      }
      assert SplitVarFile(pairs) == (None, pairs);
    }
  }

  lemma DecodeChangeFlags(autoApprove: bool, varFile: Option<string>, vars: Entries)
    requires PlainKeys(vars)
    ensures DecodeChangeOptions(ChangeOptions(autoApprove, varFile, vars)) == Some((autoApprove, Normalized(varFile), vars))
  {
    var options := VarOptions(varFile, vars);
    DecodeVarFlags(varFile, vars);
    if autoApprove {
      assert (ApprovalFlags(autoApprove) + options)[1..] == options;
    } else {
      assert ApprovalFlags(autoApprove) + options == options;
    }
    if !autoApprove && options != [] {
      if Truthy(varFile) {
        assert options[0] == "-var-file";
      } else {
        PairFlagsAt("-var", vars, 0);
        assert options[0] == "-var";
      }
    }
  }

  /** Decoding the vector of a call gives back the call, with falsy optional paths read as absent. */
  lemma DecodeArgv(call: ToolParams)
    requires WellKeyed(call)
    ensures Decode(Argv(call)) == Some(Normalize(call))
  {
    match call
    case Init(backendConfig) => DecodeInitArgv(backendConfig);
    case Plan(varFile, vars) => DecodePlanArgv(varFile, vars);
    case Apply(autoApprove, varFile, vars) => DecodeApplyArgv(autoApprove, varFile, vars);
    case Destroy(autoApprove, varFile, vars) => DecodeDestroyArgv(autoApprove, varFile, vars);
    case Validate =>
    case Show(planFile) =>
    case WorkspaceList =>
    case WorkspaceSelect(name) =>
  }

  lemma DecodeInitArgv(backendConfig: Entries)
    requires PlainKeys(backendConfig)
    ensures Decode(Argv(Init(backendConfig))) == Some(Init(backendConfig))
  {
    var argv := Argv(Init(backendConfig));
    assert argv[1] == "init" && argv[2..] == PairFlags("-backend-config", backendConfig);
    DecodePairsOfPairFlags("-backend-config", backendConfig);
  }

  lemma DecodePlanArgv(varFile: Option<string>, vars: Entries)
    requires PlainKeys(vars)
    ensures Decode(Argv(Plan(varFile, vars))) == Some(Plan(Normalized(varFile), vars))
  {
    var argv := Argv(Plan(varFile, vars));
    assert argv[1] == "plan" && argv[2..] == VarOptions(varFile, vars);
    DecodeVarFlags(varFile, vars);
  }

  lemma DecodeApplyArgv(autoApprove: bool, varFile: Option<string>, vars: Entries)
    requires PlainKeys(vars)
    ensures Decode(Argv(Apply(autoApprove, varFile, vars))) == Some(Apply(autoApprove, Normalized(varFile), vars))
  {
    var argv := Argv(Apply(autoApprove, varFile, vars));
    assert argv[1] == "apply";
    assert argv[2..] == ChangeOptions(autoApprove, varFile, vars);
    DecodeChangeFlags(autoApprove, varFile, vars);
  }

  lemma DecodeDestroyArgv(autoApprove: bool, varFile: Option<string>, vars: Entries)
    requires PlainKeys(vars)
    ensures Decode(Argv(Destroy(autoApprove, varFile, vars))) == Some(Destroy(autoApprove, Normalized(varFile), vars))
  {
    var argv := Argv(Destroy(autoApprove, varFile, vars));
    assert argv[1] == "destroy";
    assert argv[2..] == ChangeOptions(autoApprove, varFile, vars);
    DecodeChangeFlags(autoApprove, varFile, vars);
  }

  /** Two calls with '='-free keys that spawn the same vector differ at most in falsy optional paths. */
  lemma ArgvDeterminesCall(c1: ToolParams, c2: ToolParams)
    requires WellKeyed(c1) && WellKeyed(c2) && Argv(c1) == Argv(c2)
    ensures Normalize(c1) == Normalize(c2)
  {
    DecodeArgv(c1);
    DecodeArgv(c2);
  }

  /** With an '=' inside a key, two different dicts give the same vector. */
  lemma KeyWithEqualsIsAmbiguous()
    ensures Argv(Plan(None, [("a=b", "c")])) == Argv(Plan(None, [("a", "b=c")]))
  {
    assert KeyValue("a=b", "c") == "a=b=c" == KeyValue("a", "b=c");
    assert PairFlags("-var", [("a=b", "c")]) == ["-var", "a=b=c"] == PairFlags("-var", [("a", "b=c")]);
  }
}
