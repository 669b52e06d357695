# Terraform tool adapter: argument vectors and result mapping

This project models the core of a small adapter that exposes `terraform`
subcommands as remotely callable tools. The adapter has two variants, and both
are modelled.

- **`main.py` tool handlers** (module `TerraformTools`). Eight handlers: init,
  plan, apply, destroy, validate, show, workspace list and workspace select.
  Each one builds the list `cmd`, starting with `terraform` and the subcommand
  words. It appends `-auto-approve`, then the `-var-file <path>` pair, then one
  `-var key=value` or `-backend-config key=value` pair per dict entry, and a
  positional plan file or workspace name last. It runs `cmd` in the call's
  `working_dir`. A zero exit becomes status `completed` with stdout. A
  `CalledProcessError` becomes status `failed` with `Error: ` and stderr.
  `Argv` specifies every vector. Each `Handle…` method grows `cmd` the way its
  handler does, and is proved to spawn exactly `Argv` of its parameters.
  `ToolArgvProperties` proves where each flag sits and when it is present. It
  also proves what reordering a dict changes, and that apply and destroy differ
  only in their subcommand. `ToolArgvDecode` defines `Decode`, which accepts
  only the handlers' own token order. As long as no dict key holds `=`,
  `Decode` is a left inverse of `Argv`: decoding gives back the call up to
  `Normalize`, so `Argv` is injective up to `Normalize`. A key holding `=`
  makes two calls share a vector (`KeyWithEqualsIsAmbiguous`).
- **`mcp/server.py` `Server.run_terraform`** (module `McpServer`). It first
  refuses a missing terraform directory with `FileNotFoundError`, before
  anything is built or run. It then builds `terraform <command>` plus one
  `-key value` pair for each argument whose value is not None, and maps the
  outcome to a `{success, output, error}` record. The method's `spawned`
  result is the process it starts, or None when it starts nothing.

Running a process is a parameter `run: Invocation -> Outcome`. `Invocation`
holds the argument vector and the working directory. `Outcome` is `Completed`
or `CalledProcessError`, each with the captured stdout and stderr. The
directory test of `os.path.exists` is a parameter `pathExists: string -> bool`.
Python dicts are sequences of pairs in iteration order. An absent optional
string is `None`. Python's `if var_file:` is `Truthy`: present and not empty.

The code leaves several things undone, and the model follows it:
- An empty workspace name is not rejected. It is passed on as the last token.
- No operation name is validated. `run_terraform` passes any `command` on.
- The result records carry no exit code.
- `main.py` drops the partial stdout of a failed run. Only `run_terraform`
  keeps it (`VariantsAgree`, `FailureDropsStdout`).
- The `-auto-approve` token can appear without `auto_approve`: a `var_file`
  of `-auto-approve` puts it at index 3. So `ApprovalFlagPlacement` counts it
  exactly. It says the flag is at index 2 iff `auto_approve` is set.

## Model

| member | source | states |
|---|---|---|
| `TerraformTools.KeyValue` | main.py:182 | the token `key=value` is the key, then `=`, then the value: its length is the sum plus one, the `=` sits right after the key, and the parts before and after it are the key and the value |
| `TerraformTools.PairFlags` | main.py:181-182 | one dict contributes exactly two tokens per entry |
| `TerraformTools.PairFlagsAt` | main.py:181-182 | entry j becomes the flag at index 2j and `key=value` of that same entry at 2j + 1, so the pairs follow the dict's iteration order |
| `TerraformTools.PairFlagsAppend` | main.py:181-182 | the pairs of two runs of entries joined are the two runs' pairs joined |
| `TerraformTools.Argv` | main.py:178-384 | every handler's vector starts with `terraform` followed by the tool's subcommand words (init, plan, apply, destroy, validate, show, workspace list, workspace select) |
| `TerraformTools.StatusOf` | main.py:192-200 | status is `completed` exactly for a zero exit, with output = stdout; `failed` exactly for CalledProcessError, with output = `Error: ` followed by stderr |
| `TerraformTools.ExtendPairs` | main.py:214-215 | the `for key, value in ….items(): cmd.extend(...)` loop leaves `cmd` followed by the dict's pairs in order |
| `TerraformTools.HandleInit` | main.py:174-200 | the init handler spawns `Argv(Init(backend_config))` in `working_dir` and returns the status of that run's outcome |
| `TerraformTools.HandlePlan` | main.py:202-233 | the plan handler spawns `Argv(Plan(var_file, var))` in `working_dir` and returns the status of that run's outcome |
| `TerraformTools.HandleApply` | main.py:235-270 | the apply handler spawns `Argv(Apply(auto_approve, var_file, var))` in `working_dir` and returns the status of that run's outcome |
| `TerraformTools.HandleDestroy` | main.py:272-307 | the destroy handler spawns `Argv(Destroy(auto_approve, var_file, var))` in `working_dir` and returns the status of that run's outcome |
| `TerraformTools.HandleValidate` | main.py:309-328 | the validate handler spawns `terraform validate` in `working_dir` and returns the status of that run's outcome |
| `TerraformTools.HandleShow` | main.py:330-355 | the show handler spawns `Argv(Show(plan_file))` in `working_dir` and returns the status of that run's outcome |
| `TerraformTools.HandleWorkspaceList` | main.py:357-376 | the workspace-list handler spawns `terraform workspace list` in `working_dir` and returns the status of that run's outcome |
| `TerraformTools.HandleWorkspaceSelect` | main.py:378-398 | the workspace-select handler spawns `terraform workspace select <name>` for any name, empty included, and returns the status of that run's outcome |
| `ToolArgvProperties.FlagNotInPairs` | main.py:214-215 | a token without `=` that is not the pair flag never occurs among a dict's pairs |
| `ToolArgvProperties.InitArgvShape` | main.py:178-182 | the init vector has length 2 plus twice the number of backend_config entries, starts `terraform init`, and has `-backend-config` and `key=value` of entry j at 2 + 2j and 3 + 2j |
| `ToolArgvProperties.PlanVarFilePlacement` | main.py:207-215 | `-var-file` occurs in the plan vector iff var_file is truthy; if so, the pair is at indices 2–3 and the `-var` pairs follow it in dict order |
| `ToolArgvProperties.ApprovalFlagPlacement` | main.py:241-252 | for apply and destroy, index 2 holds `-auto-approve` iff auto_approve; the token occurs once for the flag plus once if var_file itself is `-auto-approve`; the var-file pair and the var pairs follow |
| `ToolArgvProperties.ApplyDestroyDifferOnlyInSubcommand` | main.py:241-289 | apply and destroy give vectors of equal length that agree at every index but 1, where they hold `apply` and `destroy` |
| `ToolArgvProperties.PositionalArgvs` | main.py:314-384 | show is `terraform show` for a falsy plan_file, else has plan_file as its one extra last token; validate and workspace list are fixed; workspace select ends in the name |
| `ToolArgvProperties.ArgvEndsWithPairs` | main.py:178-289 | a vector with a dict is the tokens that do not depend on the dict, followed by the dict's pairs |
| `ToolArgvProperties.ReorderedMappingPermutesPairs` | main.py:214-215 | reordering a dict's entries keeps the length and every token before the pairs; new pair j equals the old pair of the entry now at j, so only pair order changes |
| `ToolArgvProperties.FailureDropsStdout` | main.py:196-200 | two failed runs with the same stderr give the same status whatever their stdout, and the output after `Error: ` is the stderr |
| `ToolArgvDecode.SplitAssignment` | main.py:182 | splitting at the first `=` fails iff there is no `=`; otherwise it gives an `=`-free key and a value that rejoin to the token |
| `ToolArgvDecode.SplitKeyValue` | main.py:182 | an `=`-free key and any value are read back whole from `key=value` |
| `ToolArgvDecode.DecodePairsOfPairFlags` | main.py:181-182 | reading `flag key=value` pairs back from a dict's pairs gives the dict, when no key holds `=` |
| `ToolArgvDecode.DecodeVarFlags` | main.py:210-215 | the var-file and var tokens read back as the normalised var_file and the var dict, when no key of the dict holds `=` |
| `ToolArgvDecode.DecodeChangeFlags` | main.py:243-252 | the approval, var-file and var tokens read back as auto_approve, the normalised var_file and the var dict, when no key of the dict holds `=` |
| `ToolArgvDecode.DecodeInitArgv` | main.py:178-182 | the init vector decodes to the same init call, when no key of the dict holds `=` |
| `ToolArgvDecode.DecodePlanArgv` | main.py:207-215 | the plan vector decodes to the plan call, with a falsy var_file read as absent, when no key of the dict holds `=` |
| `ToolArgvDecode.DecodeApplyArgv` | main.py:241-252 | the apply vector decodes to the apply call, with a falsy var_file read as absent, when no key of the dict holds `=` |
| `ToolArgvDecode.DecodeDestroyArgv` | main.py:278-289 | the destroy vector decodes to the destroy call, with a falsy var_file read as absent, when no key of the dict holds `=` |
| `ToolArgvDecode.DecodeArgv` | main.py:178-384 | every tool's vector decodes to its call, with falsy optional paths read as absent, when no dict key holds `=` |
| `ToolArgvDecode.ArgvDeterminesCall` | main.py:178-384 | two calls whose dict keys hold no `=` and that spawn the same vector differ at most in falsy optional paths |
| `ToolArgvDecode.KeyWithEqualsIsAmbiguous` | main.py:215 | with `=` inside a key, two different var dicts give the same plan vector |
| `McpServer.Present` | mcp/server.py:31-32 | filtering never yields more arguments than there are entries |
| `McpServer.PresentMembers` | mcp/server.py:31-32 | the arguments kept are exactly the entries whose value is not None |
| `McpServer.PresentAppend` | mcp/server.py:31-32 | the filter keeps order: two runs of arguments joined are filtered part by part |
| `McpServer.NoneArgumentIgnored` | mcp/server.py:32 | a None-valued argument anywhere in the dict changes nothing |
| `McpServer.OptionFlags` | mcp/server.py:31-33 | the loop adds two tokens per argument that is not None |
| `McpServer.OptionFlagsAt` | mcp/server.py:33 | the j-th argument with a value gives `-key` at 2j and its value at 2j + 1 |
| `McpServer.OptionFlagsAppend` | mcp/server.py:31-33 | the tokens of two runs of arguments joined are the two runs' tokens joined |
| `McpServer.ServerArgv` | mcp/server.py:29-33 | the vector starts with `terraform <command>` and has length 2 + 2·(number of arguments that are not None) |
| `McpServer.ServerArgvShape` | mcp/server.py:29-33 | None or empty args give exactly `terraform <command>`; the j-th argument with a value stands at 2 + 2j and 3 + 2j; every token at an even index from 2 on starts with `-` |
| `McpServer.ResultOf` | mcp/server.py:43-53 | success iff a zero exit; error is None iff success; output is the stdout of success or the partial stdout of a failure; a failure's error is its stderr |
| `McpServer.VariantsAgree` | mcp/server.py:43-53 | the two variants agree on success and on the error text; on a zero exit both report the same output; main.py's status of a failure is the same as if its stdout were empty |
| `McpServer.Server.constructor` | mcp/server.py:9-10 | the server holds the config it was given |
| `McpServer.Server.RunTerraform` | mcp/server.py:24-53 | a missing directory raises FileNotFoundError naming it, and nothing is spawned; otherwise `ServerArgv(command, args)` is spawned in the configured directory and the result is that run's record |

## Left out

- `subprocess.run` (main.py:185-191, mcp/server.py:36-42): process creation, the environment and blocking are not modelled. The runner is a parameter, so a run is a deterministic function of its invocation.
- Any failure to spawn the process is outside the model and is not an `Outcome`. This covers a `terraform` binary that cannot be started, a `working_dir` in main.py that is missing or not a directory (it goes to `cwd=` unchecked, e.g. main.py:187 and main.py:315), and a permission error. `subprocess.run` then raises `FileNotFoundError`, `NotADirectoryError` or `PermissionError`, and neither variant catches it. So each `Handle…` method's status, and `RunTerraform`'s result, hold only for calls that do spawn.
- `os.path.exists` (mcp/server.py:26) is the `pathExists` parameter.
- Python's text conversion of non-string values (the f-string at main.py:182, `str(value)` at mcp/server.py:33) is not modelled. Values are strings already.
- A `backend_config` or `var` passed explicitly as None or as a non-dict would raise `AttributeError`. A None workspace `name` would fail inside `subprocess.run`. The tool schemas rule these out, so the model does not cover them.
- `get_terraform_tools` (main.py:7-171) is declarative schema data with no behaviour.
- `create_mcp_server`, `main` (main.py:401-432) and the async handler plumbing belong to the FastMCP framework, which is not part of this model.
- `Server.__init__`'s logging set-up and the stubbed `Server.start` (mcp/server.py:11-22) are global logging state and an unimplemented placeholder.
- mcp/main.py (argument parsing and start-up) and `Config.from_args` (mcp/config.py:12-20) are field copies with nothing to prove. mcp/main.py also imports a `FastMCP` that mcp/server.py does not define.
