/**
 * What the argument vectors of main.py's handlers promise: where each flag
 * sits, when it is there, and what reordering a dict or switching between
 * apply and destroy changes.
 */
module ToolArgvProperties {
  import opened Wrappers
  import opened Process
  import opened TerraformTools

  /** No token that lacks '=' and differs from the flag occurs among the pairs. */
  lemma FlagNotInPairs(flag: string, entries: Entries, t: string)
    requires t != flag && '=' !in t
    ensures t !in PairFlags(flag, entries)
  {
    var r := PairFlags(flag, entries);
    forall i | 0 <= i < |r|
      ensures r[i] != t
    {
      var j := i / 2;
      PairFlagsAt(flag, entries, j);
      if i % 2 == 1 {
        assert i == 2 * j + 1;
        assert r[i][|entries[j].0|] == '=';
      } else {
        assert i == 2 * j;
      }
    }
  }

  /** init: `terraform init`, then one `-backend-config key=value` pair per entry, in order. */
  lemma InitArgvShape(backendConfig: Entries)
    ensures var r := Argv(Init(backendConfig));
      |r| == 2 + 2 * |backendConfig| && r[..2] == ["terraform", "init"] &&
      forall j :: 0 <= j < |backendConfig| ==>
        r[2 + 2 * j] == "-backend-config" &&
        r[3 + 2 * j] == KeyValue(backendConfig[j].0, backendConfig[j].1)
  {
    var pairs := PairFlags("-backend-config", backendConfig);
    forall j | 0 <= j < |backendConfig|
      ensures pairs[2 * j] == "-backend-config" && pairs[2 * j + 1] == KeyValue(backendConfig[j].0, backendConfig[j].1)
    {
      PairFlagsAt("-backend-config", backendConfig, j);
    }
  }

  /**
   * plan: the `-var-file` pair is there exactly when var_file is truthy, at
   * indices 2 and 3, and the `-var` pairs follow it.
   */
  lemma PlanVarFilePlacement(varFile: Option<string>, vars: Entries)
    ensures var r := Argv(Plan(varFile, vars));
      var offset := if Truthy(varFile) then 4 else 2;
      ("-var-file" in r <==> Truthy(varFile)) &&
      (Truthy(varFile) ==> r[2] == "-var-file" && r[3] == varFile.value) &&
      |r| == offset + 2 * |vars| &&
      forall j :: 0 <= j < |vars| ==>
        r[offset + 2 * j] == "-var" && r[offset + 2 * j + 1] == KeyValue(vars[j].0, vars[j].1)
  {
    var r := Argv(Plan(varFile, vars));
    var pairs := PairFlags("-var", vars);
    FlagNotInPairs("-var", vars, "-var-file");
    assert r == ["terraform", "plan"] + (VarFileFlags(varFile) + pairs);
    forall j | 0 <= j < |vars|
      ensures pairs[2 * j] == "-var" && pairs[2 * j + 1] == KeyValue(vars[j].0, vars[j].1)
    {
      PairFlagsAt("-var", vars, j);
    }
  }

  /** The approval flag of apply and destroy, and the var-file and var pairs after it. */
  lemma ApprovalFlagPlacement(call: ToolParams)
    requires call.Apply? || call.Destroy?
    ensures var r := Argv(call);
      var offset := if call.autoApprove then 3 else 2;
      (2 < |r| && r[2] == "-auto-approve" <==> call.autoApprove) &&
      Occurrences(r, "-auto-approve") ==
        (if call.autoApprove then 1 else 0) + (if Truthy(call.varFile) && call.varFile.value == "-auto-approve" then 1 else 0) &&
      r[offset..] == VarOptions(call.varFile, call.vars)
  {
    var head := if call.Apply? then ["terraform", "apply"] else ["terraform", "destroy"];
    var options := ChangeOptions(call.autoApprove, call.varFile, call.vars);
    assert Argv(call) == head + options;
    ApprovalAfterHead(head, call.autoApprove, call.varFile, call.vars);
  }

  lemma ApprovalAfterHead(head: seq<string>, autoApprove: bool, varFile: Option<string>, vars: Entries)
    requires |head| == 2 && "-auto-approve" !in head
    ensures var r := head + ChangeOptions(autoApprove, varFile, vars);
      var offset := if autoApprove then 3 else 2;
      (2 < |r| && r[2] == "-auto-approve" <==> autoApprove) &&
      Occurrences(r, "-auto-approve") ==
        (if autoApprove then 1 else 0) + (if Truthy(varFile) && varFile.value == "-auto-approve" then 1 else 0) &&
      r[offset..] == VarOptions(varFile, vars)
  {
    var approval, rest := ApprovalFlags(autoApprove), VarOptions(varFile, vars);
    var r := head + ChangeOptions(autoApprove, varFile, vars);
    assert r == (head + approval) + rest;
    var offset := if autoApprove then 3 else 2;
    assert |head + approval| == offset;
    OccurrencesAbsent(head, "-auto-approve");
    OccurrencesAppend(head, approval, "-auto-approve");
    OccurrencesAppend(head + approval, rest, "-auto-approve");
    assert Occurrences(approval, "-auto-approve") == if autoApprove then 1 else 0 by {
      if autoApprove {
        assert approval[1..] == [];
      }
    }
    OccurrencesInVarOptions(varFile, vars);
    if !autoApprove && 2 < |r| {
      assert r[2] == rest[0];
      VarOptionsStart(varFile, vars);
    }
  }

  /** The var-file and var tokens hold `-auto-approve` only where var_file is that text. */
  lemma OccurrencesInVarOptions(varFile: Option<string>, vars: Entries)
    ensures Occurrences(VarOptions(varFile, vars), "-auto-approve") ==
              if Truthy(varFile) && varFile.value == "-auto-approve" then 1 else 0
  {
    var fileFlags, pairs := VarFileFlags(varFile), PairFlags("-var", vars);
    FlagNotInPairs("-var", vars, "-auto-approve");
    OccurrencesAbsent(pairs, "-auto-approve");
    OccurrencesAppend(fileFlags, pairs, "-auto-approve");
    if Truthy(varFile) {
      assert fileFlags[1..] == [varFile.value] && fileFlags[1..][1..] == [];
    }
  }

  /** The var-file and var tokens, when there are any, start with `-var-file` or `-var`. */
  lemma VarOptionsStart(varFile: Option<string>, vars: Entries)
    requires VarOptions(varFile, vars) != []
    ensures VarOptions(varFile, vars)[0] == if Truthy(varFile) then "-var-file" else "-var"
  {
    if !Truthy(varFile) {
      PairFlagsAt("-var", vars, 0);
    }
  }

  /** How often a token occurs in a vector. */
  function Occurrences(s: seq<string>, t: string): nat {
    if s == [] then 0 else (if s[0] == t then 1 else 0) + Occurrences(s[1..], t)
  }

  lemma {:induction false} OccurrencesAppend(a: seq<string>, b: seq<string>, t: string)
    ensures Occurrences(a + b, t) == Occurrences(a, t) + Occurrences(b, t)
  {
    if a == [] {
      assert a + b == b;
    } else {
      assert (a + b)[0] == a[0] && (a + b)[1..] == a[1..] + b;
      OccurrencesAppend(a[1..], b, t);
    }
  }

  lemma {:induction false} OccurrencesAbsent(s: seq<string>, t: string)
    requires t !in s
    ensures Occurrences(s, t) == 0
  {
    if s != [] {
      assert forall x :: x in s[1..] ==> x in s;
      OccurrencesAbsent(s[1..], t);
    }
  }

  /** apply and destroy build the same vector from the same parameters, apart from the subcommand. */
  lemma ApplyDestroyDifferOnlyInSubcommand(autoApprove: bool, varFile: Option<string>, vars: Entries)
    ensures var a, d := Argv(Apply(autoApprove, varFile, vars)), Argv(Destroy(autoApprove, varFile, vars));
      |a| == |d| && a[1] == "apply" && d[1] == "destroy" &&
      forall i :: 0 <= i < |a| && i != 1 ==> a[i] == d[i]
  {
    var tail := ChangeOptions(autoApprove, varFile, vars);
    var a, d := ["terraform", "apply"] + tail, ["terraform", "destroy"] + tail;
    assert Argv(Apply(autoApprove, varFile, vars)) == a;
    assert Argv(Destroy(autoApprove, varFile, vars)) == d;
    forall i | 0 <= i < |a| && i != 1
      ensures a[i] == d[i]
    {
      if i >= 2 {
        assert a[i] == tail[i - 2] == d[i];
      }
    }
  }

  /**
   * show, validate and the workspace tools: fixed vectors; show appends a
   * truthy plan file as its one last token, workspace select always ends in
   * the name, even an empty one.
   */
  lemma PositionalArgvs(planFile: Option<string>, name: string)
    ensures !Truthy(planFile) ==> Argv(Show(planFile)) == ["terraform", "show"]
    ensures Truthy(planFile) ==> Argv(Show(planFile)) == ["terraform", "show", planFile.value]
    ensures Argv(Validate) == ["terraform", "validate"]
    ensures Argv(WorkspaceList) == ["terraform", "workspace", "list"]
    ensures Argv(WorkspaceSelect(name)) == ["terraform", "workspace", "select", name]
  {
  }

  /** The tools that take a dict of `key=value` assignments. */
  predicate HasMapping(call: ToolParams) {
    call.Init? || call.Plan? || call.Apply? || call.Destroy?
  }

  function Mapping(call: ToolParams): Entries
    requires HasMapping(call)
  {
    if call.Init? then call.backendConfig else call.vars
  }

  function MappingFlag(call: ToolParams): string
    requires HasMapping(call)
  {
    if call.Init? then "-backend-config" else "-var"
  }

  /** The same call with its dict replaced. */
  function WithMapping(call: ToolParams, entries: Entries): (r: ToolParams)
    requires HasMapping(call)
    ensures HasMapping(r) && Mapping(r) == entries && MappingFlag(r) == MappingFlag(call)
  {
    match call
    case Init(_) => Init(entries)
    case Plan(varFile, _) => Plan(varFile, entries)
    case Apply(autoApprove, varFile, _) => Apply(autoApprove, varFile, entries)
    case Destroy(autoApprove, varFile, _) => Destroy(autoApprove, varFile, entries)
  }

  /** The tokens in front of a call's dict pairs. */
  function Lead(call: ToolParams): seq<string>
    requires HasMapping(call)
  {
    match call
    case Init(_) => ["terraform", "init"]
    case Plan(varFile, _) => ["terraform", "plan"] + VarFileFlags(varFile)
    case Apply(autoApprove, varFile, _) => ["terraform", "apply"] + (ApprovalFlags(autoApprove) + VarFileFlags(varFile))
    case Destroy(autoApprove, varFile, _) => ["terraform", "destroy"] + (ApprovalFlags(autoApprove) + VarFileFlags(varFile))
  }

  /** Every vector with a dict ends with the dict's pairs, after tokens the dict does not affect. */
  lemma ArgvEndsWithPairs(call: ToolParams)
    requires HasMapping(call)
    ensures Argv(call) == Lead(call) + PairFlags(MappingFlag(call), Mapping(call))
  {
    match call
    case Init(_) =>
    case Plan(varFile, vars) =>
      assert Argv(call) == ["terraform", "plan"] + (VarFileFlags(varFile) + PairFlags("-var", vars));
    case Apply(autoApprove, varFile, vars) =>
      var approval, fileFlags, pairs := ApprovalFlags(autoApprove), VarFileFlags(varFile), PairFlags("-var", vars);
      assert Argv(call) == ["terraform", "apply"] + (approval + (fileFlags + pairs));
      Regroup(["terraform", "apply"], approval, fileFlags, pairs);
    case Destroy(autoApprove, varFile, vars) =>
      var approval, fileFlags, pairs := ApprovalFlags(autoApprove), VarFileFlags(varFile), PairFlags("-var", vars);
      assert Argv(call) == ["terraform", "destroy"] + (approval + (fileFlags + pairs));
      Regroup(["terraform", "destroy"], approval, fileFlags, pairs);
  }

  /** Replacing the dict leaves the tokens in front of it alone. */
  lemma LeadOfWithMapping(call: ToolParams, entries: Entries)
    requires HasMapping(call)
    ensures Lead(WithMapping(call, entries)) == Lead(call)
  {
    match call
    case Init(_) =>
    case Plan(_, _) =>
    case Apply(_, _, _) =>
    case Destroy(_, _, _) =>
  }

  /** `order` lists the indices 0 .. n - 1, each once. */
  predicate IsOrdering(order: seq<nat>, n: nat) {
    |order| == n &&
    (forall j :: 0 <= j < n ==> order[j] < n) &&
    (forall j, l :: 0 <= j < l < n ==> order[j] != order[l])
  }

  /** The entries of a dict taken in another order. */
  function Rearranged(entries: Entries, order: seq<nat>): (r: Entries)
    requires IsOrdering(order, |entries|)
    ensures |r| == |entries| && forall j :: 0 <= j < |r| ==> r[j] == entries[order[j]]
  {
    seq(|entries|, j requires 0 <= j < |entries| => entries[order[j]])
  }

  /**
   * `s` is `r` with its last |order| pairs permuted by `order`: the same
   * length, the same tokens before the pairs, and pair j of `s` equal to pair
   * order[j] of `r`.
   */
  predicate PairsPermuted(r: seq<string>, s: seq<string>, order: seq<nat>) {
    var k := |r| - 2 * |order|;
    IsOrdering(order, |order|) && |s| == |r| && 0 <= k && s[..k] == r[..k] &&
    forall j :: 0 <= j < |order| ==>
      s[k + 2 * j] == r[k + 2 * order[j]] && s[k + 2 * j + 1] == r[k + 2 * order[j] + 1]
  }

  /**
   * Passing the same dict with its entries in another order gives a vector of
   * the same length, with the same tokens before the pairs, and pair j of the
   * new vector equal to the old pair of the entry now in place j.
   */
  lemma ReorderedMappingPermutesPairs(call: ToolParams, order: seq<nat>)
    requires HasMapping(call) && IsOrdering(order, |Mapping(call)|)
    ensures PairsPermuted(Argv(call), Argv(WithMapping(call, Rearranged(Mapping(call), order))), order)
  {
    var m, flag := Mapping(call), MappingFlag(call);
    var reordered := Rearranged(m, order);
    var changed := WithMapping(call, reordered);
    ArgvEndsWithPairs(call);
    ArgvEndsWithPairs(changed);
    LeadOfWithMapping(call, reordered);
    PairsAfterPrefix(Lead(call), flag, m, order);
  }

  /** The same, for any tokens in front of the pairs. */
  lemma PairsAfterPrefix(prefix: seq<string>, flag: string, m: Entries, order: seq<nat>)
    requires IsOrdering(order, |m|)
    ensures PairsPermuted(prefix + PairFlags(flag, m), prefix + PairFlags(flag, Rearranged(m, order)), order)
  {
    var reordered := Rearranged(m, order);
    var a, b := PairFlags(flag, m), PairFlags(flag, reordered);
    var r, s := prefix + a, prefix + b;
    var k := |prefix|;
    assert |r| - 2 * |order| == k;
    assert s[..k] == prefix == r[..k];
    forall j | 0 <= j < |order|
      ensures s[k + 2 * j] == r[k + 2 * order[j]] && s[k + 2 * j + 1] == r[k + 2 * order[j] + 1]
    {
      PairFlagsAt(flag, reordered, j);
      PairFlagsAt(flag, m, order[j]);
    }
  }

  /**
   * A failed call keeps only the stderr text behind the "Error: " prefix:
   * two failures with the same stderr report the same, whatever their stdout.
   */
  lemma FailureDropsStdout(a: Outcome, b: Outcome)
    requires a.CalledProcessError? && b.CalledProcessError? && a.stderr == b.stderr
    ensures StatusOf(a) == StatusOf(b)
    ensures StatusOf(a).output[|"Error: "|..] == a.stderr
  {
  }
}
