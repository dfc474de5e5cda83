/** The `Python` class itself: the interpreter path it is built with and
    the two fields the probe updates in place, `version` and `ready`.
    Its methods are run to completion one after another; each returns the
    events it caused, and is proved to do what `Probe` states on values. */
module Interpreter {
  import opened Wrappers
  import opened NumberParse
  import opened Command
  import opened Probe

  class Python {
    const pythonPath: string
    var version: Option<Major>
    var ready: bool

    /** The state the constructor leaves.  The `setup` it starts without
        awaiting is the method `Setup`, which the environment runs afterwards. */
    constructor (pythonPath: string)
      ensures this.pythonPath == pythonPath && version == None && !ready
    {
      this.pythonPath := pythonPath;
      version := None;
      ready := false;
    }

    /** `isReady()`, and the condition on which `awaitReady()` resolves. */
    predicate IsReady()
      reads this
    {
      ready
    }

    /** `getVersion()`: returns at once when the version is known; otherwise
        runs the version command and records 2 or 3, or fails and leaves
        the version unknown. */
    method GetVersion(run: string -> Outcome) returns (result: Result<(), Failure>, trace: seq<Event>)
      modifies this`version
      ensures old(version).Some? ==> version == old(version) && result.Ok? && trace == []
      ensures result.Ok? ==> version.Some?
      ensures result.Err? ==> version == old(version) == None
      ensures var p := ProbeVersion(old(version), pythonPath, run);
        version == p.version && result == p.result && trace == p.trace
    {
      if version.Some? {
        return Ok(()), [];
      }
      trace := [Ran(CommandLine(pythonPath, VersionArgs))];
      var output := Exec(pythonPath, run, VersionArgs);
      if output.Err? {
        return Err(Rejected(output.error)), trace;
      }
      var n := ParseInt(output.value);
      if n == Some(2) {
        version := Some(2);
        result := Ok(());
      } else if n == Some(3) {
        version := Some(3);
        result := Ok(());
      } else {
        result := Err(Thrown(VersionError));
      }
    }

    /** One package check and what follows it in `setup`: the import
        command, the short-circuit file test, and the warning. */
    method CheckTool(env: Env, tool: Tool) returns (events: seq<Event>)
      ensures events == ToolEvents(pythonPath, env, tool)
    {
      var path := FallbackPath(env, tool);
      events := [Ran(CommandLine(pythonPath, ImportArgs(tool)))];
      var found := CheckInstall(pythonPath, env.run, ImportArgs(tool));
      if !found && path.Some? {
        events := events + [Tested(path.value)];
        found := env.fileExists(path.value);
      }
      if !found {
        events := events + [Warned(tool)];
      }
    }

    /** The three package checks of `setup`, one after another. */
    method CheckAll(env: Env) returns (events: seq<Event>)
      ensures events == CheckEvents(pythonPath, env)
    {
      var docutils := CheckTool(env, Docutils);
      var sphinx := CheckTool(env, Sphinx);
      var doc8 := CheckTool(env, Doc8);
      events := docutils + sphinx + doc8;
    }

    /** `setup()`, run to completion or to the version probe's failure.  The
        flag `ready` is only ever set to true, and only after the version
        probe and all three package checks. */
    method Setup(env: Env) returns (result: Result<(), Failure>, trace: seq<Event>)
      modifies this`version, this`ready
      ensures old(ready) ==> ready
      ensures old(version).Some? ==> version == old(version)
      ensures var s := SetupSequence(old(version), pythonPath, env);
        && version == s.version && result == s.result && trace == s.trace
        && ready == (old(ready) || s.finished)
    {
      SetupSteps(version, pythonPath, env);
      result, trace := GetVersion(env.run);
      if result.Err? {
        return;
      }
      var checks := CheckAll(env);
      trace := trace + checks;
      ready := true;
    }
  }
}
