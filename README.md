# Secure shell server: policy model and execution gate

This project models two parts of the secure shell server. It proves properties of both.

- **The command policy** (`pkg/config/config.go`). A `ShellCommandConfig` holds these fields:
  - allowed directories;
  - allow rules (a command with optional sub-command lists);
  - deny rules (a command with an optional message);
  - a default error message and a block-log path;
  - an execution time limit and an output size limit.

  The policy is decoded from JSON. Each rule may be given as a bare string or as an object. Limits that are not positive fall back to 30 s and 51200 bytes. An empty message falls back to "Command not allowed by security policy". `IsCommandAllowed` searches the allow list. `AddAllowedCommand` extends the list in place.
- **The execution gate** (`pkg/runner/runner.go`). `SafeRunner.Run` takes a command vector. It rejects an empty vector. It logs the attempt together with the allow verdict, and launches only allowed commands. `RunScript` runs a script in this order:
  1. validate it;
  2. parse it;
  3. hand it to the embedded shell interpreter, whose exec hook sends every command back through `Run`.

  `RunScriptFile` reads a script, then runs it.

## How the model is built

- `wrappers.dfy` (module `Wrappers`) holds `Option` and `Result`.
- `config.dfy` (module `Config`) models the policy.
  - JSON text is abstracted. A rule-list field is `Absent`, `JsonNull`, `NotArray(err)` or `Array(elements)`. An element is `JString(s)`, `JNull`, `JObject(rule)` or `Undecodable(err)`.
  - Go passes an absent field on as empty bytes, and decoding empty bytes fails. So a document without `allowCommands` or `denyCommands` fails to load with "unexpected end of JSON input".
  - A `null` list decodes as the empty list.
  - A `null` element decodes as the empty string, because the string form is tried first. It becomes a rule for the command `""`.
  - The pure specification functions are `DecodeElems`, `DecodeRules`, `DecodeConfig`, `Allows`, `WithAllowed` and `NewDefaultConfig`.
  - The class `ShellCommandConfig` carries the fields. Its methods update them in place, and each method is proved against those functions.
- `runner.dfy` (module `Runner`) models the gate.
  - The runner's configuration is a record `ShellConfig`. It holds an allow predicate, `maxExecutionTime`, `restrictedEnv` and `workingDir`. This is because `config.ShellConfig` is not part of this model: `runner.go` reads `RestrictedEnv` and `WorkingDir` from it, and those fields are not in `ShellCommandConfig`.
  - A `SafeRunner` keeps one `trace` of events in order. An event is an attempt record `Log(cmd, args, allowed)`, a process start `Launch(program, args, env, dir, timeout, stdout, stderr)`, or an error record `LogError(message)`.
  - The operating system, the validator, the shell parser and the interpreter are functions passed in as oracles.
  - The specification functions are `RunSpec`, `Interpret`, `ScriptSpec` and `ScriptFileSpec`. The methods `Run`, `Interpreter`, `RunScript` and `RunScriptFile` are proved to append exactly their events.
  - The central property is `Gated`. It holds when every launch names a command the allow predicate accepts, and comes right after the record of that command's allowed attempt with the same arguments. `Gated` holds for every script run, whatever the validator, the interpreter and the operating system do. So does `AllConfigured`: every launch inside a script has the deadline, environment, directory and sinks a direct `Run` gives it.

Behaviour of the code worth noting:

- Deny rules are never consulted. `IsCommandAllowed` looks only at the command names of the allow list. A command that is both allowed and denied is therefore allowed.
- Sub-command lists, allowed-directory confinement and output-size capping are not implemented in these two files.
- `Run` passes no environment of its own when `RestrictedEnv` is empty. The process then inherits the server's environment. The interpreter of `RunScript`, by contrast, always gets exactly the configured entries.
- Nothing is logged for an empty command vector. Nothing is logged when a script fails validation.
- A script gets its own deadline. Each command it runs through `Run` also gets a deadline of its own.

## Model

| member | source | states |
|---|---|---|
| `Config.DecodeElems` | pkg/config/config.go:137-156 | Decoding an array succeeds iff no element is undecodable. On success the list has the input's length and order: a string `s` (or `null`, as `""`) becomes the rule for `s`, and an object is kept as decoded. On failure the error is that of the first undecodable element, and no list is returned. |
| `Config.DecodeRules` | pkg/config/config.go:131-135 | An absent list field is an error ("unexpected end of JSON input"). `null` gives the empty list. Any other non-array gives the decoder's error. An array is decoded element by element. |
| `Config.DecodeLoop` | pkg/config/config.go:139-155 | The append loop that tries string, then object, and stops at the first failure yields exactly `DecodeElems` of its input. |
| `Config.UnmarshalAllowCommands` | pkg/config/config.go:160-186 | Yields the allow-list decoding. A bare string becomes a rule with empty sub-command lists. |
| `Config.UnmarshalDenyCommands` | pkg/config/config.go:131-157 | Yields the deny-list decoding. A bare string becomes a rule with an empty message. |
| `Config.DecodeConfig` | pkg/config/config.go:42-97 | A malformed document, an allow-list error or a deny-list error, in that order, is the error, with its wrapping text. Otherwise the lists and the other fields are the decoded ones. Each limit is the raw value when positive and the default (30, 51200) otherwise. The message is the raw one when non-empty and the default otherwise. So both limits are positive and the message is non-empty. |
| `Config.ShellCommandConfig.UnmarshalJSON` | pkg/config/config.go:42-97 | On any decoding error the error is returned and no field of the receiver changes. On success every field holds the value `DecodeConfig` gives. |
| `Config.LoadConfigFromFile` | pkg/config/config.go:116-128 | A read error and a decode error are each returned with their wrapping text and no configuration. Otherwise a fresh configuration holds the decoded policy. |
| `Config.NewDefaultConfig` | pkg/config/config.go:100-113 | The default allow list is exactly three plain rules, for `ls`, `cat` and `echo` in that order, so `rm` is not allowed. It has no block-log path. It denies only `rm`, with its message. Its directories are `/home` and `/tmp`, and its limits are 30 and 51200. |
| `Config.ShellCommandConfig.IsCommandAllowed` | pkg/config/config.go:189-196 | True iff some allow rule's command equals `cmd` exactly. Deny rules and sub-command lists play no part. |
| `Config.WithAllowed` | pkg/config/config.go:199-203 | After the addition `cmd` is allowed, and the allowed set grows by `cmd` only. An allowed `cmd` leaves the list unchanged, so the addition is idempotent. Otherwise exactly one plain rule for `cmd` is appended and earlier rules are kept. |
| `Config.ShellCommandConfig.AddAllowedCommand` | pkg/config/config.go:199-203 | The allow list becomes `WithAllowed` of the old list, and no other field changes. |
| `Runner.EnvPairs` | pkg/runner/runner.go:73-79 | Building `k=v` strings in map order gives one entry per key, and its set of entries is exactly the map's pairs. |
| `Runner.RunSpec` | pkg/runner/runner.go:49-98 | An empty vector is an error with no events. A refused `args[0]` gives exactly one denied attempt record, an error and no launch. An allowed `args[0]` is recorded as allowed first. Then comes the single launch of `args[0]` with `args[1:]`. Its deadline is set iff the limit is positive. Its environment is set iff `RestrictedEnv` is non-empty, and is then exactly its `k=v` pairs. Its directory is set iff `WorkingDir` is non-empty. It uses the runner's sinks. A launch failure gives exactly one more record, "Command execution error" with the cause, and returns `ExecutionFailed` with that cause. A successful launch gives exactly the attempt and the launch, and no error. The events are gated. |
| `Runner.SafeRunner.Run` | pkg/runner/runner.go:49-98 | Appends exactly `RunSpec`'s events to the trace and returns its error. |
| `Runner.InterpretGated` | pkg/runner/runner.go:117-119 | Whatever the interpreter asks for, every launch during its run went through `Run`'s allow check. It is of an allowed command and right after that command's allowed attempt record. |
| `Runner.Interpret` | pkg/runner/runner.go:117-148 | The interpreter's run with its exec hook bound to `Run`: each command it asks for goes through `RunSpec`, and that call's error is handed back to it. The trace before the run is kept as a prefix, and the run adds at most three events per command. It ends with the interpreter's own error when the interpreter exits, and with "context deadline exceeded" when it asks for a command after `fuel` commands. |
| `Runner.SafeRunner.Interpreter` | pkg/runner/runner.go:135-148 | The interpreter with its exec hook bound to `Run` changes the trace exactly as `Interpret` says, and returns its error. |
| `Runner.ScriptSpec` | pkg/runner/runner.go:101-155 | A script the validator rejects or errors on yields no events and a validation error. After that, a parse error gives exactly its "Parse error" record and `ParseFailed`. An interpreter-creation error gives exactly its record and `InterpreterCreationFailed`. Otherwise the interpreter's events are kept, and its error adds a "Script execution error" record and gives `ScriptFailed`. The call succeeds iff validation passes, parsing and creation succeed and the interpreter returns no error. All events are gated, and every launch inside a script is configured exactly as a direct `Run` launch. |
| `Runner.ScriptSession` | pkg/runner/runner.go:121-141 | The interpreter gets exactly the configured `k=v` entries as its whole environment, even when there are none. It gets a deadline iff the limit is positive, and then of that many seconds. |
| `Runner.InterpretConfigured` | pkg/runner/runner.go:117-119 | Whatever the interpreter asks for, every launch during its run has the deadline, environment, directory and sinks that `Run` sets. |
| `Runner.SafeRunner.RunScript` | pkg/runner/runner.go:101-155 | Appends exactly `ScriptSpec`'s events, with the interpreter given the configured entries and deadline, and returns its error. |
| `Runner.ScriptFileSpec` | pkg/runner/runner.go:158-170 | A read failure is logged and returned, and the script is not run. Otherwise the result is exactly that of `RunScript` on the text read. |
| `Runner.SafeRunner.RunScriptFile` | pkg/runner/runner.go:158-170 | Appends exactly `ScriptFileSpec`'s events and returns its error. |
| `Runner.SafeRunner.SetOutputs` | pkg/runner/runner.go:43-46 | The sinks become the given ones. The frame allows no other field to change. |
| `Runner.SafeRunner.New` | pkg/runner/runner.go:32-40 | A new runner keeps its configuration and validator, writes to the process's standard output and error, and has done nothing yet. |
| `Runner.DefaultPolicyLaunchesOnlyListed` | pkg/config/config.go:100-113 | When the runner's allow predicate is the default policy's allow list, no script run launches anything but `ls`, `cat` or `echo`. |

## Left out

- Process creation and waiting (`os/exec`) are not modelled. A launch is a trace event, and its failure comes from an operating-system oracle.
- Exit statuses and the output itself are not modelled.
- The shell parser and interpreter (`mvdan.cc/sh`) are not modelled. Parsing is an oracle. The interpreter is an oracle that chooses its next command from the results of the earlier ones. Only the exec-hook wiring is modelled.
- Runner.Interpret: the run is bounded by `fuel`, a number of exec-hook calls. When the interpreter asks for a command after `fuel` of them, the run ends with "context deadline exceeded", standing for the context ending it. Real time and cancellation are not modelled, nor is an interpreter that loops without running a command.
- Runner.SafeRunner.Interpreter: its loop carries the same `fuel` bound as `Interpret`, with the same limits.
- The script validator (`pkg/validator`) is not part of this model. It is an oracle returning a verdict and an optional error.
- The logger (`pkg/logger`) is not part of this model. Its two calls are trace events.
- Context deadlines are not modelled. Only whether a deadline is requested, and its length in seconds, is recorded. `time.Duration` overflow for huge limits is not modelled.
- Byte-level JSON decoding and `os.ReadFile` are left out. A configuration document and the file read are given already decoded, or as an error.
- Go integer width is not modelled. Numbers that do not fit an `int` make the document malformed.
- Go map iteration order is left out. The environment of a launch is a set of `k=v` strings. `EnvPairs` builds the list in an arbitrary key order.
- Scripts and read bytes are strings of characters. Go's byte-level strings are not modelled.
- The runner's errors (`RunError`) are modelled by their kind and cause, not by their full formatted text. Logged messages keep their prefixes. The policy's errors keep their full text, wrapping prefixes included.
- `config.ShellConfig` and its `IsCommandAllowed` are not part of this model. The runner takes its allow check as a predicate. `DefaultPolicyLaunchesOnlyListed` links that predicate to this model's allow list.
