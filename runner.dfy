/**
 * The execution gate of the secure shell server (pkg/runner/runner.go).
 *
 * A SafeRunner records what it does as one trace of events, in order: the
 * logger's attempt and error records and the process launches. The operating
 * system, the script validator, the shell parser and the shell interpreter
 * are oracles given as functions; the model keeps only the order of decisions
 * and the wiring that sends every command of a script back through `Run`.
 */
module Runner {
  import opened Wrappers
  import Config

  /** The error the interpreter reports when the context ends its run. */
  const DeadlineExceeded: string := "context deadline exceeded"

  /** An output sink a launched process writes to. */
  datatype Writer = OsStdout | OsStderr | Sink(name: string)

  /**
   * The part of the runner's configuration that the gate reads: the allow
   * check on a command name, the time limit in seconds, the environment
   * handed to processes and the working directory ("" for unset).
   */
  datatype ShellConfig = ShellConfig(
    isAllowed: string -> bool,
    maxExecutionTime: int,
    restrictedEnv: map<string, string>,
    workingDir: string)

  /**
   * What the runner does that can be observed: a command attempt logged
   * with its verdict, a process started (env None: inherited; dir None:
   * the caller's; timeout None: no deadline), an error logged.
   */
  datatype Event =
    | Log(command: string, args: seq<string>, allowed: bool)
    | Launch(program: string, args: seq<string>, env: Option<set<string>>, dir: Option<string>,
             timeout: Option<int>, stdout: Writer, stderr: Writer)
    | LogError(message: string)

  /** The errors Run, RunScript and RunScriptFile return. */
  datatype RunError =
    | NoCommand                               // "no command provided"
    | NotPermitted(command: string)           // "command %q is not permitted"
    | ExecutionFailed(cause: string)          // "command execution error: ..."
    | ValidationFailed(reason: Option<string>) // "script validation failed: ..."
    | ParseFailed(cause: string)              // "parse error: ..."
    | InterpreterCreationFailed(cause: string)
    | ScriptFailed(cause: string)             // "script execution error: ..."
    | ReadFailed(cause: string)               // "script reading error: ..."

  /** The validator's answer about a script: its verdict and an optional error. */
  datatype Verdict = Verdict(valid: bool, err: Option<string>)

  /** The operating system: the failure, if any, of running `launch` after the events so far. */
  type Os = (seq<Event>, Event) -> Option<string>

  /** One move of the interpreter: run a command through the exec hook, or finish. */
  datatype Action = Exec(args: seq<string>) | Exit(err: Option<string>)

  /**
   * The shell library: the parse error of a script, if any; the error of
   * creating an interpreter, if any; and the interpreter itself, which from
   * the script, its environment, its deadline and the results of the exec
   * hook so far decides its next move.
   */
  datatype Shell = Shell(
    parse: string -> Option<string>,
    creationError: Option<string>,
    step: (string, set<string>, Option<int>, seq<Option<RunError>>) -> Action)

  /** Everything a single Run depends on besides its arguments. */
  datatype Host = Host(config: ShellConfig, stdout: Writer, stderr: Writer, os: Os)

  /** The events a call adds to the trace and the error it returns. */
  datatype Step = Step(events: seq<Event>, err: Option<RunError>)

  /** A script run by the interpreter: the whole trace afterwards and the interpreter's error. */
  datatype ScriptRun = ScriptRun(trace: seq<Event>, err: Option<string>)

  /** An interpreter session: the host, the shell library, the script, its environment and deadline. */
  datatype Session = Session(host: Host, shell: Shell, script: string, env: set<string>, timeout: Option<int>)

  // ---------------------------------------------------------------------------
  // Launch parameters
  // ---------------------------------------------------------------------------

  /** One environment entry in the `key=value` form. */
  function EnvEntry(k: string, v: string): string {
    k + "=" + v
  }

  /** The set of `key=value` entries of an environment map. */
  function EnvEntries(m: map<string, string>): (s: set<string>)
    ensures forall k :: k in m ==> EnvEntry(k, m[k]) in s
    ensures forall e :: e in s ==> exists k :: k in m && e == EnvEntry(k, m[k])
  {
    set k | k in m :: EnvEntry(k, m[k])
  }

  /** The deadline a call requests: the time limit when it is positive, none otherwise. */
  function TimeoutOf(cfg: ShellConfig): Option<int> {
    if cfg.maxExecutionTime > 0 then Some(cfg.maxExecutionTime) else None
  }

  /** A process's environment: the configured entries when there are any; inherited otherwise. */
  function LaunchEnv(m: map<string, string>): Option<set<string>> {
    if |m| > 0 then Some(EnvEntries(m)) else None
  }

  /** A process's working directory: the configured one when it is set. */
  function LaunchDir(dir: string): Option<string> {
    if dir != "" then Some(dir) else None
  }

  /**
   * `e` is a launch configured from `cfg`: a deadline exactly when the time
   * limit is positive, an environment of exactly the configured entries when
   * there are any, the working directory exactly when one is set, and the
   * given output sinks.
   */
  ghost predicate ConfiguredLaunch(cfg: ShellConfig, out: Writer, errOut: Writer, e: Event) {
    && e.Launch?
    && (e.timeout.Some? <==> cfg.maxExecutionTime > 0)
    && (e.timeout.Some? ==> e.timeout.value == cfg.maxExecutionTime)
    && (e.env.Some? <==> |cfg.restrictedEnv| > 0)
    && (e.env.Some? ==> forall s :: s in e.env.value <==> exists k :: k in cfg.restrictedEnv && s == EnvEntry(k, cfg.restrictedEnv[k]))
    && (e.dir.Some? <==> cfg.workingDir != "")
    && (e.dir.Some? ==> e.dir.value == cfg.workingDir)
    && e.stdout == out && e.stderr == errOut
  }

  /**
   * Builds the `key=value` list of an environment map, visiting the keys in
   * an arbitrary order (Go's map iteration order is unspecified).
   */
  method EnvPairs(m: map<string, string>) returns (env: seq<string>)
    ensures |env| == |m|
    ensures (set e | e in env) == EnvEntries(m)
  {
    env := [];
    var keys := m.Keys;
    while keys != {}
      invariant keys <= m.Keys
      invariant |env| + |keys| == |m|
      invariant forall k :: k in m && k !in keys ==> EnvEntry(k, m[k]) in env
      invariant forall e :: e in env ==> exists k :: k in m && k !in keys && e == EnvEntry(k, m[k])
      decreases |keys|
    {
      var k :| k in keys;
      env := env + [EnvEntry(k, m[k])];
      keys := keys - {k};
    }
    assert keys == {};
  }

  // ---------------------------------------------------------------------------
  // The gate
  // ---------------------------------------------------------------------------

  /**
   * Every launch in `events` is of a command `allowed` accepts and comes
   * right after the record of its allowed attempt, with the same arguments.
   */
  ghost predicate Gated(events: seq<Event>, allowed: string -> bool) {
    forall i :: 0 <= i < |events| && events[i].Launch? ==>
      && 0 < i
      && events[i - 1] == Log(events[i].program, events[i].args, true)
      && allowed(events[i].program)
  }

  /** Gated traces stay gated when one follows another. */
  lemma GatedConcat(a: seq<Event>, b: seq<Event>, allowed: string -> bool)
    requires Gated(a, allowed) && Gated(b, allowed)
    ensures Gated(a + b, allowed)
  {
  }

  /** Every launch in `events` is configured from `cfg` and writes to the given sinks. */
  ghost predicate AllConfigured(events: seq<Event>, cfg: ShellConfig, out: Writer, errOut: Writer) {
    forall i :: 0 <= i < |events| && events[i].Launch? ==> ConfiguredLaunch(cfg, out, errOut, events[i])
  }

  /**
   * What one Run does: reject an empty argument vector silently; log a
   * command the allow check refuses as denied and stop; otherwise log it as
   * allowed, then launch exactly that program with the remaining arguments,
   * and log and return the launch failure, if any.
   */
  function RunSpec(h: Host, history: seq<Event>, args: seq<string>): (s: Step)
    ensures s.events == [] <==> args == []
    ensures args == [] ==> s.err == Some(NoCommand)
    ensures args != [] ==> s.events[0] == Log(args[0], args[1..], h.config.isAllowed(args[0]))
    ensures args != [] && !h.config.isAllowed(args[0]) ==>
      s.events == [Log(args[0], args[1..], false)] && s.err == Some(NotPermitted(args[0]))
    ensures args != [] && h.config.isAllowed(args[0]) ==>
      && 2 <= |s.events| <= 3
      && s.events[1].Launch? && s.events[1].program == args[0] && s.events[1].args == args[1..]
      && ConfiguredLaunch(h.config, h.stdout, h.stderr, s.events[1])
    ensures forall i :: 0 <= i < |s.events| && s.events[i].Launch? ==> i == 1
    ensures s.err.None? <==> args != [] && h.config.isAllowed(args[0]) && h.os(history + [s.events[0]], s.events[1]).None?
    ensures s.err.Some? && s.err.value.ExecutionFailed? ==>
      |s.events| == 3 && s.events[2] == LogError("Command execution error: " + s.err.value.cause)
    ensures args != [] && h.config.isAllowed(args[0]) ==>
      var f := h.os(history + [s.events[0]], s.events[1]);
      && (f.Some? ==> s.events[2..] == [LogError("Command execution error: " + f.value)] && s.err == Some(ExecutionFailed(f.value)))
      && (f.None? ==> |s.events| == 2)
    ensures Gated(s.events, h.config.isAllowed)
    ensures AllConfigured(s.events, h.config, h.stdout, h.stderr)
  {
    if args == [] then Step([], Some(NoCommand))
    else if !h.config.isAllowed(args[0]) then
      Step([Log(args[0], args[1..], false)], Some(NotPermitted(args[0])))
    else
      var attempt := Log(args[0], args[1..], true);
      var launch := Launch(args[0], args[1..], LaunchEnv(h.config.restrictedEnv),
                           LaunchDir(h.config.workingDir), TimeoutOf(h.config), h.stdout, h.stderr);
      var failure := h.os(history + [attempt], launch);
      if failure.Some? then
        Step([attempt, launch, LogError("Command execution error: " + failure.value)],
             Some(ExecutionFailed(failure.value)))
      else
        Step([attempt, launch], None)
  }

  /**
   * The interpreter's run: each command it asks for goes through RunSpec
   * and its result is handed back, until the interpreter finishes or, after
   * `fuel` commands, the context ends the run.
   */
  function Interpret(s: Session, history: seq<Event>, results: seq<Option<RunError>>, fuel: nat): (r: ScriptRun)
    ensures |history| <= |r.trace| && r.trace[..|history|] == history
    ensures |r.trace| <= |history| + 3 * fuel
    ensures s.shell.step(s.script, s.env, s.timeout, results).Exit? ==>
      r == ScriptRun(history, s.shell.step(s.script, s.env, s.timeout, results).err)
    ensures s.shell.step(s.script, s.env, s.timeout, results).Exec? && fuel == 0 ==>
      r == ScriptRun(history, Some(DeadlineExceeded))
    decreases fuel
  {
    match s.shell.step(s.script, s.env, s.timeout, results)
    case Exit(e) => ScriptRun(history, e)
    case Exec(args) =>
      if fuel == 0 then ScriptRun(history, Some(DeadlineExceeded))
      else
        var st := RunSpec(s.host, history, args);
        var r := Interpret(s, history + st.events, results + [st.err], fuel - 1);
        assert r.trace[..|history|] == (history + st.events)[..|history|];
        r
  }

  /** Everything the interpreter adds to the trace is gated: each launch went through Run's check. */
  lemma {:induction false} InterpretGated(s: Session, history: seq<Event>, results: seq<Option<RunError>>, fuel: nat)
    ensures Gated(Interpret(s, history, results, fuel).trace[|history|..], s.host.config.isAllowed)
    decreases fuel
  {
    var r := Interpret(s, history, results, fuel);
    match s.shell.step(s.script, s.env, s.timeout, results)
    case Exit(e) =>
      assert r.trace[|history|..] == [];
    case Exec(args) =>
      if fuel == 0 {
        assert r.trace[|history|..] == [];
      } else {
        var st := RunSpec(s.host, history, args);
        var h2 := history + st.events;
        InterpretGated(s, h2, results + [st.err], fuel - 1);
        assert r == Interpret(s, h2, results + [st.err], fuel - 1);
        assert r.trace[..|h2|] == h2;
        assert r.trace[|history|..] == st.events + r.trace[|h2|..];
        GatedConcat(st.events, r.trace[|h2|..], s.host.config.isAllowed);
      }
  }

  /** Every launch the interpreter causes is configured exactly as a direct Run's launch is. */
  lemma {:induction false} InterpretConfigured(s: Session, history: seq<Event>, results: seq<Option<RunError>>, fuel: nat)
    ensures AllConfigured(Interpret(s, history, results, fuel).trace[|history|..], s.host.config, s.host.stdout, s.host.stderr)
    decreases fuel
  {
    var r := Interpret(s, history, results, fuel);
    match s.shell.step(s.script, s.env, s.timeout, results)
    case Exit(e) =>
      assert r.trace[|history|..] == [];
    case Exec(args) =>
      if fuel == 0 {
        assert r.trace[|history|..] == [];
      } else {
        var st := RunSpec(s.host, history, args);
        var h2 := history + st.events;
        InterpretConfigured(s, h2, results + [st.err], fuel - 1);
        assert r == Interpret(s, h2, results + [st.err], fuel - 1);
        assert r.trace[..|h2|] == h2;
        assert r.trace[|history|..] == st.events + r.trace[|h2|..];
      }
  }

  /**
   * The session RunScript hands to the interpreter: the configured entries
   * as its whole environment (even when there are none) and a deadline
   * exactly when the time limit is positive.
   */
  function ScriptSession(h: Host, shell: Shell, script: string): (s: Session)
    ensures s.host == h && s.shell == shell && s.script == script
    ensures forall e :: e in s.env <==> exists k :: k in h.config.restrictedEnv && e == EnvEntry(k, h.config.restrictedEnv[k])
    ensures s.timeout.Some? <==> h.config.maxExecutionTime > 0
    ensures s.timeout.Some? ==> s.timeout.value == h.config.maxExecutionTime
  {
    Session(h, shell, script, EnvEntries(h.config.restrictedEnv), TimeoutOf(h.config))
  }

  /**
   * What RunScript does: a script the validator rejects, or reports an
   * error on, yields nothing else; then a parse error and an interpreter
   * creation error are logged and returned; then the interpreter runs with
   * the configured entries as its whole environment and the deadline of the
   * time limit, and its error is logged and returned.
   */
  function ScriptSpec(h: Host, validator: string -> Verdict, shell: Shell, script: string,
                      history: seq<Event>, fuel: nat): (s: Step)
    ensures !validator(script).valid || validator(script).err.Some? ==>
      s.events == [] && s.err == Some(ValidationFailed(validator(script).err))
    ensures (exists i :: 0 <= i < |s.events| && (s.events[i].Log? || s.events[i].Launch?)) ==>
      validator(script).valid && validator(script).err.None? && shell.parse(script).None? && shell.creationError.None?
    ensures validator(script).valid && validator(script).err.None? && shell.parse(script).Some? ==>
      s.events == [LogError("Parse error: " + shell.parse(script).value)] && s.err == Some(ParseFailed(shell.parse(script).value))
    ensures validator(script).valid && validator(script).err.None? && shell.parse(script).None? && shell.creationError.Some? ==>
      && s.events == [LogError("Interpreter creation error: " + shell.creationError.value)]
      && s.err == Some(InterpreterCreationFailed(shell.creationError.value))
    ensures validator(script).valid && validator(script).err.None? && shell.parse(script).None? && shell.creationError.None? ==>
      var run := Interpret(ScriptSession(h, shell, script), history, [], fuel);
      && (run.err.Some? ==>
            && s.events == run.trace[|history|..] + [LogError("Script execution error: " + run.err.value)]
            && s.err == Some(ScriptFailed(run.err.value)))
      && (run.err.None? ==> s.events == run.trace[|history|..] && s.err == None)
    ensures s.err.None? <==>
      && validator(script).valid && validator(script).err.None? && shell.parse(script).None? && shell.creationError.None?
      && Interpret(ScriptSession(h, shell, script), history, [], fuel).err.None?
    ensures Gated(s.events, h.config.isAllowed)
    ensures AllConfigured(s.events, h.config, h.stdout, h.stderr)
  {
    var v := validator(script);
    if !v.valid || v.err.Some? then Step([], Some(ValidationFailed(v.err)))
    else if shell.parse(script).Some? then
      var e := shell.parse(script).value;
      Step([LogError("Parse error: " + e)], Some(ParseFailed(e)))
    else if shell.creationError.Some? then
      var e := shell.creationError.value;
      Step([LogError("Interpreter creation error: " + e)], Some(InterpreterCreationFailed(e)))
    else
      var session := ScriptSession(h, shell, script);
      var run := Interpret(session, history, [], fuel);
      var events := run.trace[|history|..];
      InterpretGated(session, history, [], fuel);
      InterpretConfigured(session, history, [], fuel);
      if run.err.Some? then
        var tail := [LogError("Script execution error: " + run.err.value)];
        assert Gated(tail, h.config.isAllowed);
        GatedConcat(events, tail, h.config.isAllowed);
        Step(events + tail, Some(ScriptFailed(run.err.value)))
      else
        Step(events, None)
  }

  /** What RunScriptFile does: a read failure is logged and returned; otherwise RunScript on the text read. */
  function ScriptFileSpec(h: Host, validator: string -> Verdict, shell: Shell, read: Result<string>,
                          history: seq<Event>, fuel: nat): (s: Step)
    ensures read.Err? ==> s.events == [LogError("Script reading error: " + read.error)] && s.err == Some(ReadFailed(read.error))
    ensures read.Ok? ==> s == ScriptSpec(h, validator, shell, read.value, history, fuel)
    ensures Gated(s.events, h.config.isAllowed)
    ensures AllConfigured(s.events, h.config, h.stdout, h.stderr)
  {
    if read.Err? then Step([LogError("Script reading error: " + read.error)], Some(ReadFailed(read.error)))
    else ScriptSpec(h, validator, shell, read.value, history, fuel)
  }

  /**
   * Under the default policy's allow list, nothing a script run launches is
   * other than ls, cat or echo; in particular rm is never launched.
   */
  lemma DefaultPolicyLaunchesOnlyListed(h: Host, validator: string -> Verdict, shell: Shell, script: string,
                                        history: seq<Event>, fuel: nat)
    requires forall c :: h.config.isAllowed(c) == Config.Allows(Config.NewDefaultConfig().allowCommands, c)
    ensures forall e :: e in ScriptSpec(h, validator, shell, script, history, fuel).events && e.Launch? ==>
      e.program == "ls" || e.program == "cat" || e.program == "echo"
  {
    var events := ScriptSpec(h, validator, shell, script, history, fuel).events;
    forall e | e in events && e.Launch?
      ensures e.program == "ls" || e.program == "cat" || e.program == "echo"
    {
      var i :| 0 <= i < |events| && events[i] == e;
      assert h.config.isAllowed(e.program);
      assert Config.Allows(Config.NewDefaultConfig().allowCommands, e.program);
    }
  }

  // ---------------------------------------------------------------------------
  // The runner
  // ---------------------------------------------------------------------------

  /** A SafeRunner: its configuration, its validator, its output sinks and what it has done so far. */
  class SafeRunner {
    const config: ShellConfig
    const validator: string -> Verdict
    var stdout: Writer
    var stderr: Writer
    var trace: seq<Event>

    /** The host a call of this runner runs against. */
    function HostOf(os: Os): Host
      reads this
    {
      Host(config, stdout, stderr, os)
    }

    /** A runner writing to the process's own standard output and error, with nothing done yet. */
    constructor New(config: ShellConfig, validator: string -> Verdict)
      ensures this.config == config && this.validator == validator
      ensures stdout == OsStdout && stderr == OsStderr && trace == []
    {
      this.config := config;
      this.validator := validator;
      stdout := OsStdout;
      stderr := OsStderr;
      trace := [];
    }

    /** Replaces the output sinks; nothing else changes. */
    method SetOutputs(out: Writer, errOut: Writer)
      modifies this`stdout, this`stderr
      ensures stdout == out && stderr == errOut
      ensures trace == old(trace)
    {
      stdout := out;
      stderr := errOut;
    }

    /** Runs one command vector through the allow check and, if allowed, launches it. */
    method Run(args: seq<string>, os: Os) returns (err: Option<RunError>)
      modifies this`trace
      ensures trace == old(trace) + RunSpec(HostOf(os), old(trace), args).events
      ensures err == RunSpec(HostOf(os), old(trace), args).err
    {
      if |args| == 0 {
        return Some(NoCommand);
      }

      var cmd := args[0];
      if !config.isAllowed(cmd) {
        trace := trace + [Log(cmd, args[1..], false)];
        return Some(NotPermitted(cmd));
      }

      trace := trace + [Log(cmd, args[1..], true)];

      var timeout: Option<int> := None;
      if config.maxExecutionTime > 0 {
        timeout := Some(config.maxExecutionTime);
      }

      var env: Option<set<string>> := None;
      if |config.restrictedEnv| > 0 {
        var pairs := EnvPairs(config.restrictedEnv);
        env := Some(set e | e in pairs);
      }

      var dir: Option<string> := None;
      if config.workingDir != "" {
        dir := Some(config.workingDir);
      }

      var launch := Launch(cmd, args[1..], env, dir, timeout, stdout, stderr);
      var failure := os(trace, launch);
      trace := trace + [launch];
      if failure.Some? {
        trace := trace + [LogError("Command execution error: " + failure.value)];
        return Some(ExecutionFailed(failure.value));
      }
      return None;
    }

    /**
     * The interpreter's run of a parsed script, with its exec hook bound to
     * Run: every command the interpreter asks for is passed to Run and the
     * result handed back.
     */
    method Interpreter(shell: Shell, script: string, env: set<string>, timeout: Option<int>, os: Os, fuel: nat)
      returns (ierr: Option<string>)
      modifies this`trace
      ensures trace == Interpret(Session(HostOf(os), shell, script, env, timeout), old(trace), [], fuel).trace
      ensures ierr == Interpret(Session(HostOf(os), shell, script, env, timeout), old(trace), [], fuel).err
    {
      ghost var session := Session(HostOf(os), shell, script, env, timeout);
      var results: seq<Option<RunError>> := [];
      var n := fuel;
      while true
        invariant session.host == HostOf(os)
        invariant Interpret(session, trace, results, n) == Interpret(session, old(trace), [], fuel)
        decreases n
      {
        var action := shell.step(script, env, timeout, results);
        match action {
          case Exit(e) =>
            return e;
          case Exec(args) =>
            if n == 0 {
              return Some(DeadlineExceeded);
            }
            var e := Run(args, os);
            results := results + [e];
            n := n - 1;
        }
      }
    }

    /** Validates, parses and then interprets a script, every command going through Run. */
    method RunScript(script: string, shell: Shell, os: Os, fuel: nat) returns (err: Option<RunError>)
      modifies this`trace
      ensures trace == old(trace) + ScriptSpec(HostOf(os), validator, shell, script, old(trace), fuel).events
      ensures err == ScriptSpec(HostOf(os), validator, shell, script, old(trace), fuel).err
    {
      var verdict := validator(script);
      if !verdict.valid || verdict.err.Some? {
        return Some(ValidationFailed(verdict.err));
      }

      var parseError := shell.parse(script);
      if parseError.Some? {
        trace := trace + [LogError("Parse error: " + parseError.value)];
        return Some(ParseFailed(parseError.value));
      }

      var timeout: Option<int> := None;
      if config.maxExecutionTime > 0 {
        timeout := Some(config.maxExecutionTime);
      }

      var envPairs := EnvPairs(config.restrictedEnv);

      if shell.creationError.Some? {
        trace := trace + [LogError("Interpreter creation error: " + shell.creationError.value)];
        return Some(InterpreterCreationFailed(shell.creationError.value));
      }

      ghost var before := trace;
      var ierr := Interpreter(shell, script, (set e | e in envPairs), timeout, os, fuel);
      assert trace == before + trace[|before|..];
      if ierr.Some? {
        trace := trace + [LogError("Script execution error: " + ierr.value)];
        return Some(ScriptFailed(ierr.value));
      }
      return None;
    }

    /** Runs the script read from a reader, or logs and returns the read failure. */
    method RunScriptFile(read: Result<string>, shell: Shell, os: Os, fuel: nat) returns (err: Option<RunError>)
      modifies this`trace
      ensures trace == old(trace) + ScriptFileSpec(HostOf(os), validator, shell, read, old(trace), fuel).events
      ensures err == ScriptFileSpec(HostOf(os), validator, shell, read, old(trace), fuel).err
    {
      if read.Err? {
        trace := trace + [LogError("Script reading error: " + read.error)];
        return Some(ReadFailed(read.error));
      }
      err := RunScript(read.value, shell, os, fuel);
    }
  }
}
