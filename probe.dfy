/** What the `Python` class does, stated on values: the version probe of
    `getVersion`, the three package checks and the warnings of `setup`.
    Every effect outside the object is an input: the child process is
    `Env.run` (from command line to outcome), the configured sphinx and
    linter paths are `Env.sphinxPath` and `Env.linterPath`, the file-system
    test is `Env.fileExists`; each command run, file tested and warning
    shown is an event of a trace, in the order the source performs them. */
module Probe {
  import opened Wrappers
  import opened NumberParse
  import opened Command
  import Strings

  /** A Python major version the probe accepts. */
  type Major = v: int | v == 2 || v == 3 witness 3

  /** The optional documentation tools, in the order `setup` checks them. */
  datatype Tool = Docutils | Sphinx | Doc8

  const VersionArgs: seq<string> := ["-c", "\"import sys; print(sys.version_info[0])\""]
  const VersionError: string := "Could not get python version"

  /** The arguments of the import command that checks for a tool. */
  function ImportArgs(tool: Tool): seq<string>
  {
    match tool
    case Docutils => ["-c", "\"import docutils;\""]
    case Sphinx => ["-c", "\"import sphinx;\""]
    case Doc8 => ["-c", "\"import doc8.main;\""]
  }

  /** The warning shown when a tool is judged absent. */
  function WarningMessage(tool: Tool): string
  {
    match tool
    case Docutils => "Previewer docutils cannot be found."
    case Sphinx => "Previewer sphinx-build cannot be found."
    case Doc8 => "Linter doc8 cannot be found."
  }

  /** Each tool has its own message: two warnings read the same only when
      they are about the same tool. */
  lemma WarningMessageDistinct(a: Tool, b: Tool)
    ensures WarningMessage(a) == WarningMessage(b) <==> a == b
  {
    if a != b {
      assert |WarningMessage(a)| != |WarningMessage(b)|;
    }
  }

  /** The texts shown for a list of warned tools, in order. */
  function Messages(tools: seq<Tool>): (m: seq<string>)
    ensures |m| == |tools|
    ensures forall i :: 0 <= i < |tools| ==> m[i] == WarningMessage(tools[i])
  {
    seq(|tools|, i requires 0 <= i < |tools| => WarningMessage(tools[i]))
  }

  /** The world outside the object, as far as the probe consults it. */
  datatype Env = Env(
    run: string -> Outcome,
    sphinxPath: Option<string>,
    linterPath: Option<string>,
    fileExists: string -> bool)

  /** The configured path that can stand in for a missing import: the
      sphinx path, the linter path, and none for docutils. */
  function FallbackPath(env: Env, tool: Tool): Option<string>
  {
    match tool
    case Docutils => None
    case Sphinx => env.sphinxPath
    case Doc8 => env.linterPath
  }

  /** An external effect: a command line run, a path tested for existence,
      or the warning about a tool shown. */
  datatype Event = Ran(command: string) | Tested(path: string) | Warned(tool: Tool)

  /** Why a probe stops: `exec` rejected with a diagnostic string, or the
      version switch threw an `Error` with this message. */
  datatype Failure = Rejected(diagnostic: string) | Thrown(message: string)

  /** The command lines run, in trace order. */
  function Commands(trace: seq<Event>): seq<string>
    decreases |trace|
  {
    if trace == [] then []
    else (if trace[0].Ran? then [trace[0].command] else []) + Commands(trace[1..])
  }

  /** The paths tested, in trace order. */
  function Tests(trace: seq<Event>): seq<string>
    decreases |trace|
  {
    if trace == [] then []
    else (if trace[0].Tested? then [trace[0].path] else []) + Tests(trace[1..])
  }

  /** The tools warned about, in trace order. */
  function Warnings(trace: seq<Event>): seq<Tool>
    decreases |trace|
  {
    if trace == [] then []
    else (if trace[0].Warned? then [trace[0].tool] else []) + Warnings(trace[1..])
  }

  /** The commands of a trace distribute over concatenation. */
  lemma {:induction false} CommandsAppend(a: seq<Event>, b: seq<Event>)
    ensures Commands(a + b) == Commands(a) + Commands(b)
    decreases |a|
  {
    if a == [] {
      assert a + b == b;
    } else {
      assert (a + b)[0] == a[0];
      assert (a + b)[1..] == a[1..] + b;
      CommandsAppend(a[1..], b);
    }
  }

  /** So do the file tests. */
  lemma {:induction false} TestsAppend(a: seq<Event>, b: seq<Event>)
    ensures Tests(a + b) == Tests(a) + Tests(b)
    decreases |a|
  {
    if a == [] {
      assert a + b == b;
    } else {
      assert (a + b)[0] == a[0];
      assert (a + b)[1..] == a[1..] + b;
      TestsAppend(a[1..], b);
    }
  }

  /** And the warnings. */
  lemma {:induction false} WarningsAppend(a: seq<Event>, b: seq<Event>)
    ensures Warnings(a + b) == Warnings(a) + Warnings(b)
    decreases |a|
  {
    if a == [] {
      assert a + b == b;
    } else {
      assert (a + b)[0] == a[0];
      assert (a + b)[1..] == a[1..] + b;
      WarningsAppend(a[1..], b);
    }
  }

  /** All three projections at once: a proof step for `ToolEvents`, not a
      claim about the source. */
  lemma ProjectionsAppend(a: seq<Event>, b: seq<Event>)
    ensures Commands(a + b) == Commands(a) + Commands(b)
    ensures Tests(a + b) == Tests(a) + Tests(b)
    ensures Warnings(a + b) == Warnings(a) + Warnings(b)
  {
    CommandsAppend(a, b);
    TestsAppend(a, b);
    WarningsAppend(a, b);
  }

  /** Every command the probe runs is the interpreter path, ` -c `, and
      the quoted one-line program, which is the second argument. */
  lemma ProbeCommandLine(pythonPath: string, args: seq<string>)
    requires args == VersionArgs || args in {ImportArgs(Docutils), ImportArgs(Sphinx), ImportArgs(Doc8)}
    ensures |args| == 2 && args[0] == "-c"
    ensures CommandLine(pythonPath, args) == pythonPath + " -c " + args[1]
  {
    assert args[1..] == [args[1]];
    assert Strings.Join(" ", args) == "-c" + " " + args[1];
  }

  /** The `switch` on `Number.parseInt` of the version probe's output:
      2 and 3 are accepted, anything else (NaN included) is not. */
  function Classify(output: string): (v: Option<Major>)
    ensures v.Some? <==> ParseInt(output) == Some(2) || ParseInt(output) == Some(3)
    ensures v.Some? ==> ParseInt(output) == Some(v.value)
  {
    match ParseInt(output)
    case Some(n) => if n == 2 || n == 3 then Some(n) else None
    case None => None
  }

  /** The interpreter's answer, the digit 2 or 3 after any white space and
      followed by anything that is not a digit (a line break, say), is
      recognised as that version. */
  lemma ClassifyPrinted(ws: string, v: Major, rest: string)
    requires AllWhiteSpace(ws)
    requires rest == [] || !IsRadixDigit(rest[0], 10)
    ensures Classify(ws + Decimal(v) + rest) == Some(v)
  {
    ParseIntOfDecimal(ws, v, rest);
  }

  /** A hexadecimal answer such as `0x3` is recognised as well: with no
      radix given, `parseInt` reads radix 16 after the prefix. */
  lemma ClassifyHex(ws: string, prefix: string, v: Major, rest: string)
    requires AllWhiteSpace(ws) && (prefix == "0x" || prefix == "0X")
    requires rest == [] || !IsRadixDigit(rest[0], 16)
    ensures Classify(ws + prefix + Decimal(v) + rest) == Some(v)
  {
    var d := Decimal(v);
    assert AllDigits(d, 16) && Value(d, 16) == v by {
      assert d == [d[0]] && d[..0] == "";
      ValueOfDecimal(v);
    }
    ParseIntOfHex(ws, prefix, d, rest);
  }

  /** Any other number the interpreter might print is refused. */
  lemma ClassifyOtherNumber(ws: string, n: nat, rest: string)
    requires AllWhiteSpace(ws) && n != 2 && n != 3
    requires rest == [] || !IsRadixDigit(rest[0], 10)
    requires !(n == 0 && rest != [] && (rest[0] == 'x' || rest[0] == 'X'))
    ensures Classify(ws + Decimal(n) + rest) == None
  {
    ParseIntOfDecimal(ws, n, rest);
  }

  /** A negative number is refused, and so is output with no digit (NaN),
      such as an empty output. */
  lemma ClassifySignedOrNaN(ws: string, sign: string, u: string)
    requires AllWhiteSpace(ws) && IsSign(sign)
    requires sign != "" || u == [] || (!IsStrWhiteSpaceChar(u[0]) && u[0] != '+' && u[0] != '-')
    requires sign == "-" || u == [] || !IsRadixDigit(u[0], 10)
    ensures Classify(ws + sign + u) == None
  {
    ParseIntSigned(ws, sign, u);
    if u == [] || !IsRadixDigit(u[0], 10) {
      ParseUnsignedNaN(u);
    }
  }

  /** A `0x` or `0X` prefix with no hexadecimal digit after it is NaN, and refused. */
  lemma ClassifyHexNaN(ws: string, prefix: string, rest: string)
    requires AllWhiteSpace(ws) && (prefix == "0x" || prefix == "0X")
    requires rest == [] || !IsRadixDigit(rest[0], 16)
    ensures Classify(ws + prefix + rest) == None
  {
    var u := prefix + rest;
    assert ParseUnsigned(u) == None by {
      ParseUnsignedHexNaN(prefix, rest);
    }
    assert !IsStrWhiteSpaceChar(u[0]) && u[0] != '+' && u[0] != '-' by {
      assert u[0] == prefix[0] == '0';
    }
    Strings.Regroup3(ws, prefix, rest);
    ParseIntSigned(ws, "", u);
  }

  /** `check*Install`: true exactly when `exec` of the import command
      resolves; a rejection is caught and gives false. */
  function CheckInstall(pythonPath: string, run: string -> Outcome, args: seq<string>): (installed: bool)
    ensures installed <==> run(CommandLine(pythonPath, args)).Success?
  {
    Exec(pythonPath, run, args).Ok?
  }

  /** The command line of the import check for a tool. */
  function ImportCommand(pythonPath: string, tool: Tool): string
  {
    CommandLine(pythonPath, ImportArgs(tool))
  }

  /** When `setup` warns about a tool: its import command fails and it is
      not present at a configured fallback path. */
  predicate Missing(pythonPath: string, env: Env, tool: Tool)
  {
    var path := FallbackPath(env, tool);
    env.run(ImportCommand(pythonPath, tool)).Failure? && !(path.Some? && env.fileExists(path.value))
  }

  /** The file a package check tests: its configured path, when the import
      failed and a path is set; nothing otherwise. */
  function FileTested(pythonPath: string, env: Env, tool: Tool): seq<string>
  {
    var path := FallbackPath(env, tool);
    if env.run(ImportCommand(pythonPath, tool)).Failure? && path.Some? then [path.value] else []
  }

  /** The events of one package check: the import command, then the
      short-circuit `installed || (path != null && fileExists(path))`,
      which tests the file only when the import failed and a path is
      configured, then the warning when that condition is false.  Docutils
      has no fallback path: its condition is `installed` alone. */
  function ToolEvents(pythonPath: string, env: Env, tool: Tool): (events: seq<Event>)
    ensures Commands(events) == [ImportCommand(pythonPath, tool)]
    ensures Tests(events) == FileTested(pythonPath, env, tool)
    ensures Warnings(events) == if Missing(pythonPath, env, tool) then [tool] else []
  {
    var installed := CheckInstall(pythonPath, env.run, ImportArgs(tool));
    var path := FallbackPath(env, tool);
    var ran := [Ran(ImportCommand(pythonPath, tool))];
    var tested := if !installed && path.Some? then [Tested(path.value)] else [];
    var found := installed || (path.Some? && env.fileExists(path.value));
    var warned := if !found then [Warned(tool)] else [];
    ProjectionsAppend(ran, tested);
    ProjectionsAppend(ran + tested, warned);
    ran + tested + warned
  }

  /** What one call of `getVersion` does, from the version already known. */
  datatype VersionRun = VersionRun(version: Option<Major>, result: Result<(), Failure>, trace: seq<Event>)

  /** `getVersion`: nothing to do once a version is known; otherwise one
      `exec` of the version command, whose output is classified. */
  function ProbeVersion(known: Option<Major>, pythonPath: string, run: string -> Outcome): (p: VersionRun)
    ensures known.Some? ==> p == VersionRun(known, Ok(()), [])
    ensures known.None? ==> p.trace == [Ran(CommandLine(pythonPath, VersionArgs))]
    ensures p.result.Ok? ==> p.version.Some?
    ensures p.result.Err? ==> p.version == None
  {
    if known.Some? then VersionRun(known, Ok(()), [])
    else
      var trace := [Ran(CommandLine(pythonPath, VersionArgs))];
      match Exec(pythonPath, run, VersionArgs)
      case Err(reason) => VersionRun(None, Err(Rejected(reason)), trace)
      case Ok(output) =>
        match Classify(output)
        case Some(v) => VersionRun(Some(v), Ok(()), trace)
        case None => VersionRun(None, Err(Thrown(VersionError)), trace)
  }

  /** When no version is known, the probe succeeds exactly when the command
      succeeds and its output is classified, and then records the number
      `parseInt` reads; a failed command rejects with the `exec`
      diagnostic, and any other output with the version error. */
  lemma ProbeVersionOutcome(pythonPath: string, run: string -> Outcome)
    ensures var p := ProbeVersion(None, pythonPath, run);
      var o := run(CommandLine(pythonPath, VersionArgs));
      && (p.result.Ok? <==> o.Success? && Classify(o.stdout).Some?)
      && (p.result.Ok? ==> ParseInt(o.stdout) == Some(p.version.value))
      && (o.Failure? ==> p.result == Err(Rejected(Diagnostic(o.name, o.message, o.stack, o.stderr))))
      && (o.Success? && Classify(o.stdout).None? ==> p.result == Err(Thrown(VersionError)))
  {
  }

  /** What one call of `setup` does: the version it leaves, whether it ran
      to the end (and so sets `ready`), how its promise settles, and its events. */
  datatype SetupRun = SetupRun(version: Option<Major>, finished: bool, result: Result<(), Failure>, trace: seq<Event>)

  /** The tools among docutils, sphinx and doc8, in that order, whose flag is set. */
  function Flagged(docutils: bool, sphinx: bool, doc8: bool): seq<Tool>
  {
    (if docutils then [Docutils] else []) + (if sphinx then [Sphinx] else []) + (if doc8 then [Doc8] else [])
  }

  /** Such a list has no tool twice, and holds a tool exactly when its flag is set. */
  lemma FlaggedOnce(docutils: bool, sphinx: bool, doc8: bool)
    ensures var w := Flagged(docutils, sphinx, doc8);
      && |w| <= 3
      && (forall i, j :: 0 <= i < j < |w| ==> w[i] != w[j])
      && (Docutils in w <==> docutils) && (Sphinx in w <==> sphinx) && (Doc8 in w <==> doc8)
  {
  }

  /** The events of the three package checks that follow a successful
      version probe: docutils, sphinx, doc8. */
  function CheckEvents(pythonPath: string, env: Env): seq<Event>
  {
    ToolEvents(pythonPath, env, Docutils) + ToolEvents(pythonPath, env, Sphinx) + ToolEvents(pythonPath, env, Doc8)
  }

  /** The three checks run the docutils, sphinx and doc8 import commands, in that order. */
  lemma CheckCommands(pythonPath: string, env: Env)
    ensures Commands(CheckEvents(pythonPath, env)) ==
      [ImportCommand(pythonPath, Docutils), ImportCommand(pythonPath, Sphinx), ImportCommand(pythonPath, Doc8)]
  {
    var d := ToolEvents(pythonPath, env, Docutils);
    var s := ToolEvents(pythonPath, env, Sphinx);
    var c := ToolEvents(pythonPath, env, Doc8);
    CommandsAppend(d, s);
    CommandsAppend(d + s, c);
    Strings.Triple(ImportCommand(pythonPath, Docutils), ImportCommand(pythonPath, Sphinx), ImportCommand(pythonPath, Doc8));
  }

  /** Only the sphinx and doc8 checks test a file, sphinx first. */
  lemma CheckFileTests(pythonPath: string, env: Env)
    ensures Tests(CheckEvents(pythonPath, env)) ==
      FileTested(pythonPath, env, Sphinx) + FileTested(pythonPath, env, Doc8)
  {
    var d := ToolEvents(pythonPath, env, Docutils);
    var s := ToolEvents(pythonPath, env, Sphinx);
    var c := ToolEvents(pythonPath, env, Doc8);
    TestsAppend(d, s);
    TestsAppend(d + s, c);
    Strings.AfterEmpty(Tests(d), Tests(s), Tests(c));
  }

  /** The three checks warn, in order, about each tool that is missing. */
  lemma CheckWarnings(pythonPath: string, env: Env)
    ensures Warnings(CheckEvents(pythonPath, env)) ==
      Flagged(Missing(pythonPath, env, Docutils), Missing(pythonPath, env, Sphinx), Missing(pythonPath, env, Doc8))
  {
    var d := ToolEvents(pythonPath, env, Docutils);
    var s := ToolEvents(pythonPath, env, Sphinx);
    var c := ToolEvents(pythonPath, env, Doc8);
    WarningsAppend(d, s);
    WarningsAppend(d + s, c);
  }

  /** `setup`: the version probe, whose failure ends the sequence; then the
      package checks. */
  function SetupSequence(known: Option<Major>, pythonPath: string, env: Env): (s: SetupRun)
    ensures var v := ProbeVersion(known, pythonPath, env.run);
      && s.version == v.version
      && (s.finished <==> v.result.Ok?)
      && (s.finished ==> s.version.Some? && s.result == Ok(()))
      && (!s.finished ==> s.result == v.result && s.trace == v.trace)
  {
    var v := ProbeVersion(known, pythonPath, env.run);
    if v.result.Err? then SetupRun(v.version, false, v.result, v.trace)
    else SetupRun(v.version, true, Ok(()), v.trace + CheckEvents(pythonPath, env))
  }

  /** The two ways `setup` goes, spelled out for the proof of the method
      that runs it. */
  lemma SetupSteps(known: Option<Major>, pythonPath: string, env: Env)
    ensures var v := ProbeVersion(known, pythonPath, env.run);
      var s := SetupSequence(known, pythonPath, env);
      && (v.result.Err? ==> !s.finished && s.version == v.version && s.result == v.result && s.trace == v.trace)
      && (v.result.Ok? ==>
            s.finished && s.version == v.version && s.result == Ok(())
            && s.trace == v.trace + CheckEvents(pythonPath, env))
  {
  }

  /** The warnings `setup` shows, in order: docutils exactly when its import
      fails; sphinx and doc8 exactly when the import fails and the tool is
      not found at a configured path; none when the version probe fails. */
  lemma SetupWarnings(known: Option<Major>, pythonPath: string, env: Env)
    ensures var s := SetupSequence(known, pythonPath, env);
      Warnings(s.trace) ==
        if !s.finished then []
        else
          Flagged(Missing(pythonPath, env, Docutils), Missing(pythonPath, env, Sphinx), Missing(pythonPath, env, Doc8))
  {
    var v := ProbeVersion(known, pythonPath, env.run);
    assert Warnings(v.trace) == [] by {
      if known.None? {
        assert Warnings(v.trace) == Warnings([Ran(CommandLine(pythonPath, VersionArgs))]);
      }
    }
    if v.result.Ok? {
      var c := CheckEvents(pythonPath, env);
      WarningsAppend(v.trace, c);
      CheckWarnings(pythonPath, env);
      assert Warnings(v.trace) + Warnings(c) == Warnings(c);
    }
  }

  /** At most three warnings, none twice, and each present exactly when
      `setup` ran its checks and that tool is `Missing`. */
  lemma SetupWarningsDistinct(known: Option<Major>, pythonPath: string, env: Env)
    ensures var s := SetupSequence(known, pythonPath, env);
      var w := Warnings(s.trace);
      && |w| <= 3
      && (forall i, j :: 0 <= i < j < |w| ==> w[i] != w[j])
      && (Docutils in w <==> s.finished && Missing(pythonPath, env, Docutils))
      && (Sphinx in w <==> s.finished && Missing(pythonPath, env, Sphinx))
      && (Doc8 in w <==> s.finished && Missing(pythonPath, env, Doc8))
  {
    var s := SetupSequence(known, pythonPath, env);
    SetupWarnings(known, pythonPath, env);
    var d, x, c := Missing(pythonPath, env, Docutils), Missing(pythonPath, env, Sphinx), Missing(pythonPath, env, Doc8);
    if s.finished {
      assert Warnings(s.trace) == Flagged(d, x, c);
      FlaggedOnce(d, x, c);
    } else {
      assert Warnings(s.trace) == [];
    }
  }

  /** `fileExists` is consulted only for a failed sphinx or doc8 import
      with a configured path, first for sphinx, then for doc8. */
  lemma SetupFileTests(known: Option<Major>, pythonPath: string, env: Env)
    ensures FileTested(pythonPath, env, Docutils) == []
    ensures var s := SetupSequence(known, pythonPath, env);
      Tests(s.trace) ==
        if !s.finished then [] else FileTested(pythonPath, env, Sphinx) + FileTested(pythonPath, env, Doc8)
  {
    var v := ProbeVersion(known, pythonPath, env.run);
    assert Tests(v.trace) == [] by {
      if known.None? {
        assert Tests(v.trace) == Tests([Ran(CommandLine(pythonPath, VersionArgs))]);
      }
    }
    if v.result.Ok? {
      var c := CheckEvents(pythonPath, env);
      var t := SetupSequence(known, pythonPath, env).trace;
      assert t == v.trace + c;
      var sphinx := FileTested(pythonPath, env, Sphinx);
      var doc8 := FileTested(pythonPath, env, Doc8);
      calc {
        Tests(t);
        { TestsAppend(v.trace, c); }
        Tests(v.trace) + Tests(c);
        { Strings.EmptyBefore(Tests(v.trace), Tests(c)); }
        Tests(c);
        { CheckFileTests(pythonPath, env); }
        sphinx + doc8;
      }
    }
  }

  /** The commands `setup` runs, in order: the version command unless a
      version is already known, then, only if the version probe succeeded,
      the docutils, sphinx and doc8 import commands. */
  lemma SetupCommands(known: Option<Major>, pythonPath: string, env: Env)
    ensures var s := SetupSequence(known, pythonPath, env);
      Commands(s.trace) ==
        (if known.None? then [CommandLine(pythonPath, VersionArgs)] else [])
        + (if s.finished
           then [ImportCommand(pythonPath, Docutils), ImportCommand(pythonPath, Sphinx),
                 ImportCommand(pythonPath, Doc8)]
           else [])
  {
    var v := ProbeVersion(known, pythonPath, env.run);
    var first := if known.None? then [CommandLine(pythonPath, VersionArgs)] else [];
    assert Commands(v.trace) == first;
    if v.result.Ok? {
      CommandsAppend(v.trace, CheckEvents(pythonPath, env));
      CheckCommands(pythonPath, env);
    } else {
      Strings.BeforeEmpty(first);
    }
  }

  /** A second `setup` after a completed one keeps the version and does not
      run the version command again. */
  lemma SetupAgain(known: Option<Major>, pythonPath: string, env: Env, env': Env)
    requires SetupSequence(known, pythonPath, env).finished
    ensures var s := SetupSequence(known, pythonPath, env);
      var s' := SetupSequence(s.version, pythonPath, env');
      && s'.finished && s'.version == s.version
      && Commands(s'.trace)
         == [ImportCommand(pythonPath, Docutils), ImportCommand(pythonPath, Sphinx),
             ImportCommand(pythonPath, Doc8)]
  {
    var s := SetupSequence(known, pythonPath, env);
    SetupCommands(s.version, pythonPath, env');
  }

  /** The message texts `setup` shows: at most three, none twice, and each
      of the three texts exactly when `setup` ran its checks and that tool
      is `Missing`. */
  lemma SetupMessages(known: Option<Major>, pythonPath: string, env: Env)
    ensures var s := SetupSequence(known, pythonPath, env);
      var m := Messages(Warnings(s.trace));
      && |m| <= 3
      && (forall i, j :: 0 <= i < j < |m| ==> m[i] != m[j])
      && (WarningMessage(Docutils) in m <==> s.finished && Missing(pythonPath, env, Docutils))
      && (WarningMessage(Sphinx) in m <==> s.finished && Missing(pythonPath, env, Sphinx))
      && (WarningMessage(Doc8) in m <==> s.finished && Missing(pythonPath, env, Doc8))
  {
    var s := SetupSequence(known, pythonPath, env);
    var w := Warnings(s.trace);
    var m := Messages(w);
    SetupWarningsDistinct(known, pythonPath, env);
    forall i, j | 0 <= i < j < |m|
      ensures m[i] != m[j]
    {
      WarningMessageDistinct(w[i], w[j]);
    }
    forall t: Tool
      ensures WarningMessage(t) in m <==> t in w
    {
      if WarningMessage(t) in m {
        var i :| 0 <= i < |m| && m[i] == WarningMessage(t);
        WarningMessageDistinct(w[i], t);
      }
      if t in w {
        var i :| 0 <= i < |w| && w[i] == t;
        assert m[i] == WarningMessage(t);
      }
    }
  }
}
