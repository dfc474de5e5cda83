/** What `Python.exec` computes around the child process: the command
    line it hands to the shell, and how it turns the process's outcome
    into the promise's resolved value or rejection reason.  The process
    itself is not modelled: its outcome is an input. */
module Command {
  import opened Wrappers
  import opened Strings

  /** What the child-process callback receives: no error and the captured
      standard output, or an error (its `name`, `message` and optional
      `stack`) together with the captured standard error. */
  datatype Outcome =
    | Success(stdout: string)
    | Failure(name: string, message: string, stack: Option<string>, stderr: string)

  /** `[pythonPath, ...args].join(" ")`. */
  function CommandLine(pythonPath: string, args: seq<string>): (cmd: string)
    ensures args == [] ==> cmd == pythonPath
    ensures args != [] ==> cmd == pythonPath + " " + Join(" ", args)
  {
    assert ([pythonPath] + args)[1..] == args;
    Join(" ", [pythonPath] + args)
  }

  /** The shell sees the interpreter path and then the arguments, in order,
      when none of them contains a space. */
  lemma CommandLineWords(pythonPath: string, args: seq<string>)
    requires ' ' !in pythonPath
    requires forall i :: 0 <= i < |args| ==> ' ' !in args[i]
    ensures Split(' ', CommandLine(pythonPath, args)) == [pythonPath] + args
  {
    var words := [pythonPath] + args;
    forall i | 0 <= i < |words| ensures ' ' !in words[i] {
      if i > 0 { assert words[i] == args[i - 1]; }
    }
    SplitJoin(' ', words);
  }

  /** JavaScript's `join` renders a missing (`undefined`) stack as "". */
  function StackText(stack: Option<string>): string
  {
    match stack
    case None => ""
    case Some(s) => s
  }

  /** The rejection reason of a failed `exec`: `[name, message, stack, "",
      stderr].join("\n")`.  Each part sits at a fixed place in it, and the
      empty part makes the standard error follow a blank line. */
  function Diagnostic(name: string, message: string, stack: Option<string>, stderr: string): (d: string)
    ensures |d| == |name| + |message| + |StackText(stack)| + |stderr| + 4
    ensures OccursAt(name, d, 0) && d[|name|] == '\n'
    ensures OccursAt(message, d, |name| + 1) && d[|name| + 1 + |message|] == '\n'
    ensures OccursAt(StackText(stack), d, |name| + |message| + 2)
    ensures OccursAt("\n\n" + stderr, d, |d| - |stderr| - 2)
  {
    var parts := [name, message, StackText(stack), "", stderr];
    var d := Join("\n", parts);
    assert parts[1..][1..][1..][1..] == [stderr];
    assert Join("\n", parts[1..][1..][1..]) == "" + "\n" + stderr;
    assert Join("\n", parts[1..][1..]) == StackText(stack) + "\n" + ("" + "\n" + stderr);
    assert Join("\n", parts[1..]) == message + "\n" + (StackText(stack) + "\n" + ("" + "\n" + stderr));
    assert d == name + "\n" + (message + "\n" + (StackText(stack) + "\n" + ("" + "\n" + stderr)));
    d
  }

  /** When no part has a line break of its own, the diagnostic's lines are
      exactly name, message, stack, a blank line and the standard error. */
  lemma DiagnosticLines(name: string, message: string, stack: Option<string>, stderr: string)
    requires '\n' !in name && '\n' !in message && '\n' !in StackText(stack) && '\n' !in stderr
    ensures Split('\n', Diagnostic(name, message, stack, stderr)) == [name, message, StackText(stack), "", stderr]
  {
    var parts := [name, message, StackText(stack), "", stderr];
    assert forall i :: 0 <= i < |parts| ==> '\n' !in parts[i];
    SplitJoin('\n', parts);
  }

  /** How `exec` settles its promise: it resolves with standard output
      unchanged, or rejects with the diagnostic string. */
  function Settle(o: Outcome): (r: Result<string, string>)
    ensures r.Ok? <==> o.Success?
    ensures o.Success? ==> r.value == o.stdout
    ensures o.Failure? ==> r.error == Diagnostic(o.name, o.message, o.stack, o.stderr)
    ensures o.Failure? ==> OccursAt(o.name, r.error, 0) && OccursAt(o.message, r.error, |o.name| + 1)
    ensures o.Failure? ==> |o.stderr| <= |r.error| && r.error[|r.error| - |o.stderr|..] == o.stderr
  {
    match o
    case Success(out) => Ok(out)
    case Failure(name, message, stack, stderr) =>
      var d := Diagnostic(name, message, stack, stderr);
      assert d[|d| - |stderr| - 2..] == "\n\n" + stderr;
      assert d[|d| - |stderr|..] == (d[|d| - |stderr| - 2..])[2..];
      Err(d)
  }

  /** `exec(...args)` with `run` standing for the child process: the result
      for the command line built from the interpreter path and `args`. */
  function Exec(pythonPath: string, run: string -> Outcome, args: seq<string>): (r: Result<string, string>)
    ensures r.Ok? <==> run(CommandLine(pythonPath, args)).Success?
    ensures r.Ok? ==> r.value == run(CommandLine(pythonPath, args)).stdout
    ensures var o := run(CommandLine(pythonPath, args));
      r.Err? ==> r.error == Diagnostic(o.name, o.message, o.stack, o.stderr)
  {
    Settle(run(CommandLine(pythonPath, args)))
  }
}
