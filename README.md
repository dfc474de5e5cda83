# Python interpreter probe, modelled in Dafny

This project models the `Python` class of a VS Code reStructuredText
extension (`src/python.ts`). The class finds out which major version of
Python the configured interpreter is. It then checks whether three
optional documentation tools can be imported: docutils, sphinx and doc8.
It shows a warning for each tool it judges absent. When the whole sequence
has run, it sets a readiness flag. It also runs arbitrary interpreter
commands through one helper, `exec`.

Every effect outside the object is an input to the model:

- The child process is `Probe.Env.run`. It maps a command line to an
  `Command.Outcome`: either `Success(stdout)` or
  `Failure(name, message, stack, stderr)`.
- The configured sphinx and linter paths are `Env.sphinxPath` and
  `Env.linterPath`. Both are optional.
- The file-system test is `Env.fileExists`.
- Each command run, file tested and warning shown becomes an `Event` in a
  returned trace, in the order the source performs them. `Warned(tool)`
  stands for showing `WarningMessage(tool)`; `Probe.SetupMessages` states
  which texts `setup` shows.

A tool is `Probe.Missing` when its import command fails and it is not
found at a configured path. Docutils has no configured path, so for it a
failed import is enough. `Probe.FileTested` is the file a check tests: the
tool's configured path, when the import failed and a path is set.

The model has six modules:

- `Wrappers`: `Option` and `Result`.
- `Strings`: `Array.prototype.join`. One-character `String.prototype.split`
  is included as its inverse, so that the lemmas can say what `join` keeps.
- `NumberParse`: `Number.parseInt` with no radix, as section 19.2.5 of
  ECMA-262 defines `parseInt`. It skips leading StrWhiteSpaceChar
  characters and takes an optional sign. A `0x`/`0X` prefix selects
  radix 16; otherwise the radix is 10. It then reads the longest run of
  digits of that radix. No digit gives NaN, written `None`, also when a
  `0x` prefix is followed by no hexadecimal digit.
- `Command`: the string work inside `exec`. This is the command line, the
  diagnostic built on failure, and how the promise settles.
- `Probe`: the version probe, the package checks and `setup`, stated as
  functions on values, with the lemmas about them.
- `Interpreter`: the class `Python`. It has the fields `version` and
  `ready`, and imperative methods `GetVersion`, `CheckTool`, `CheckAll`
  and `Setup`. Each method is proved to do what the matching `Probe`
  function states.
  `IsReady` is `isReady()`. It is also the condition on which
  `awaitReady()` resolves.

How the model relates to the code:

- `setup` is private, and its only caller is the constructor
  (src/python.ts:13, 31). So each object runs it once, and the
  `version !== null` guard of `getVersion` (lines 77-79) never fires there.
  The model makes `Interpreter.Python.Setup` a method that may run more
  than once, so that the guard and `ready = true` can be stated for any
  state. Every completed run assigns `ready := true`, a no-op after the
  first: `Setup` ensures `ready == old(ready) || finished`.
  `Probe.SetupAgain` is about such a repeated run, which only the model
  makes.
- The command line is `pythonPath + " " + args.join(" ")` when there are
  arguments, and `pythonPath` alone when there are none. See
  `Command.CommandLine`.
- With no radix, `Number.parseInt` also reads hexadecimal. So an output
  of `0x3` is classified as version 3 (`Probe.ClassifyHex`).

## Model

| member | source | states |
|---|---|---|
| `Strings.Join` | src/python.ts:101 | `Array.prototype.join`: no text for no elements, the one element alone, otherwise the elements with the separator between them. `JoinAt`, `JoinEndsWithLast` and `SplitJoin` state what it keeps |
| `Strings.JoinAt` | src/python.ts:97-101 | every element of a joined array occurs in the result, at the position given by the lengths of the elements and separators before it |
| `Strings.JoinEndsWithLast` | src/python.ts:104-110 | the last element of a joined array is a suffix of the result |
| `Strings.SplitJoin` | src/python.ts:104-110 | splitting a join on its one-character separator gives back the elements, when no element contains the separator |
| `NumberParse.ParseInt` | src/python.ts:84 | `Number.parseInt` with no radix: white space is skipped, then an optional sign, then the unsigned numeral. Its behaviour is stated by `ParseIntSigned`, which covers every input given the unsigned step, and by `ParseUnsignedDecimal`, `ParseUnsignedHex`, `ParseUnsignedHexNaN` and `ParseUnsignedNaN`, which between them cover every unsigned input; `ParseIntOfDecimal` and `ParseIntOfHex` combine them |
| `NumberParse.TrimStart` | src/python.ts:84 | `parseInt` drops exactly the leading white space: the result is a suffix, everything removed is white space, and what is left does not start with white space |
| `NumberParse.DigitRun` | src/python.ts:84 | the digits read are the longest prefix made only of digits of the radix |
| `NumberParse.ParseIntSigned` | src/python.ts:84 | after white space, `parseInt` applies a leading `+` or `-` to the value of the unsigned numeral that follows, and NaN stays NaN |
| `NumberParse.ParseUnsignedDecimal` | src/python.ts:84 | decimal digits followed by a non-digit read as their decimal value, unless they are the `0` of a `0x` prefix |
| `NumberParse.ParseUnsignedHex` | src/python.ts:84 | `0x` or `0X` followed by hexadecimal digits reads those digits in radix 16 |
| `NumberParse.ParseUnsignedHexNaN` | src/python.ts:84 | a `0x` or `0X` prefix followed by no hexadecimal digit is NaN |
| `NumberParse.ParseUnsignedNaN` | src/python.ts:84 | text that does not start with a digit is NaN |
| `NumberParse.ParseIntOfHex` | src/python.ts:84 | `parseInt` of white space, `0x` or `0X`, hexadecimal digits, then a non-hexadecimal character gives the digits' radix-16 value |
| `NumberParse.Decimal` | src/python.ts:84 | the decimal numeral of a number is a non-empty digit string, with no leading zero unless the number is 0 |
| `NumberParse.ValueOfDecimal` | src/python.ts:84 | reading back the decimal numeral of `n` gives `n` |
| `NumberParse.ParseIntOfDecimal` | src/python.ts:84 | `parseInt` of white space, the decimal numeral of `n`, then a non-digit gives `n` (for `n = 0`, the next character must not be `x`) |
| `Command.CommandLine` | src/python.ts:97-101 | the command is the interpreter path alone when there are no arguments, and otherwise the path, a space and the space-joined arguments |
| `Command.CommandLineWords` | src/python.ts:97-101 | when neither the path nor any argument contains a space, the words of the command line are the path followed by the arguments, in order |
| `Command.Diagnostic` | src/python.ts:104-110 | the rejection string puts name, message and stack at fixed offsets, separated by line breaks, and ends with a blank line followed by standard error; its length is the parts' lengths plus four |
| `Command.DiagnosticLines` | src/python.ts:104-110 | the single-line special case: when the parts have no line breaks, the lines of the rejection string are name, message, stack, an empty line, and standard error |
| `Command.Settle` | src/python.ts:103-116 | `exec` resolves exactly when the process succeeded, with standard output unchanged; on failure it rejects with exactly the `Diagnostic` of the error's name, message, stack and standard error, which starts with the name and ends with standard error |
| `Command.Exec` | src/python.ts:96-120 | `exec(...args)` resolves exactly when the outcome for its command line is a success, and then with that outcome's standard output; otherwise it rejects with that outcome's `Diagnostic` |
| `Probe.ProbeCommandLine` | src/python.ts:51 | the version and import commands are the interpreter path, ` -c `, and the quoted one-line program (also lines 60, 69 and 80-83) |
| `Probe.WarningMessage` | src/python.ts:34-44 | the three warning texts, at lines 34, 39 and 44. `WarningMessageDistinct` and `SetupMessages` state what they show |
| `Probe.WarningMessageDistinct` | src/python.ts:34-44 | two warning texts are equal exactly when they are about the same tool |
| `Probe.Classify` | src/python.ts:84-93 | the version switch accepts an output exactly when `parseInt` of it is 2 or 3, and then records that number |
| `Probe.ClassifyPrinted` | src/python.ts:84-90 | the interpreter printing 2 or 3, after any white space and followed by a non-digit such as a line break, is recognised as that version |
| `Probe.ClassifyHex` | src/python.ts:84-90 | `0x2` or `0x3` (also `0X`), after white space and followed by a non-hexadecimal character, is recognised too |
| `Probe.ClassifyOtherNumber` | src/python.ts:91-92 | any other non-negative number printed is refused |
| `Probe.ClassifySignedOrNaN` | src/python.ts:91-92 | a negative number is refused, and so is output with no digit where the number should start, such as empty output |
| `Probe.ClassifyHexNaN` | src/python.ts:91-92 | output that is a `0x` or `0X` prefix with no hexadecimal digit after it is refused |
| `Probe.CheckInstall` | src/python.ts:49-74 | a package check is true exactly when `exec` of its import command succeeds; a rejection gives false and does not propagate |
| `Probe.ToolEvents` | src/python.ts:33-45 | one package check runs exactly its import command. It tests the configured path only when the import failed and a path is set. It warns exactly when the import failed and the tool is not at a configured path |
| `Probe.ProbeVersion` | src/python.ts:76-94 | with a known version, nothing runs and the version is kept. Otherwise exactly the version command runs. The version is known after success and unknown after failure |
| `Probe.ProbeVersionOutcome` | src/python.ts:80-93 | with no known version, the probe succeeds exactly when the command succeeds and its output is classified, and records the number `parseInt` reads. A failed command rejects with the exec diagnostic; any other output rejects with the "Could not get python version" error |
| `Probe.FlaggedOnce` | src/python.ts:33-45 | the list of warned tools has at most three entries, none twice, each present exactly when its condition holds |
| `Probe.CheckEvents` | src/python.ts:33-45 | the three package checks, docutils, sphinx and doc8, one after the other. `CheckCommands`, `CheckFileTests` and `CheckWarnings` state their events |
| `Probe.CheckCommands` | src/python.ts:33-45 | the three checks run the docutils, sphinx and doc8 import commands, in that order |
| `Probe.CheckFileTests` | src/python.ts:37-44 | of the three checks, only sphinx and then doc8 may test a file |
| `Probe.CheckWarnings` | src/python.ts:33-45 | the three checks warn, in the order docutils, sphinx, doc8, about each tool that is `Missing` |
| `Probe.SetupSequence` | src/python.ts:31-47 | `setup` finishes exactly when the version probe succeeds, and then a version is known. When the probe fails, `setup` stops with the probe's error and its events only |
| `Probe.SetupWarnings` | src/python.ts:33-45 | the warnings shown are docutils iff its import fails, then sphinx and doc8 iff their import fails and no configured path exists, in that order; no warning when the version probe fails |
| `Probe.SetupWarningsDistinct` | src/python.ts:33-45 | at most three warnings, none repeated, each present exactly when `setup` ran its checks and the tool is `Missing`: its import failed, and (for sphinx and doc8) no configured path exists |
| `Probe.SetupMessages` | src/python.ts:33-45 | the texts `setup` shows: at most three, none twice, each exactly when `setup` ran its checks and that tool is `Missing` |
| `Probe.SetupFileTests` | src/python.ts:37-44 | the docutils check never tests a file. `fileExists` is called only for a failed sphinx or doc8 import with a configured path, for sphinx first; never when the version probe fails |
| `Probe.SetupCommands` | src/python.ts:31-45 | `setup` runs the version command only if no version is known. If the probe succeeds, it then runs the docutils, sphinx and doc8 import commands, in that order |
| `Probe.SetupAgain` | src/python.ts:77-79 | what the guard of `getVersion` gives a second `setup`, a run only the model makes: after a completed one it keeps the version, finishes, and runs only the three import commands |
| `Interpreter.Python.constructor` | src/python.ts:8-14 | a new object has the given interpreter path, no known version, and `ready` false |
| `Interpreter.Python.IsReady` | src/python.ts:16-18 | `isReady()` reads the flag `ready`, which is also the condition polled at line 23. `Setup`'s contract states when it becomes true |
| `Interpreter.Python.GetVersion` | src/python.ts:76-94 | updates `version` exactly as `ProbeVersion` states. It never changes a known version, sets it at most once, and leaves it unknown on failure |
| `Interpreter.Python.CheckTool` | src/python.ts:33-45 | one check and its short-circuit fallback produce exactly the events `ToolEvents` states |
| `Interpreter.Python.CheckAll` | src/python.ts:33-45 | the three checks, run one after another, produce the events `CheckEvents` lists |
| `Interpreter.Python.Setup` | src/python.ts:31-47 | updates the fields and returns the events exactly as `SetupSequence` states. `ready` is only ever made true, and only when the sequence finishes. A known version is never changed |

## Left out

- The child process (`child_process.exec`) and the shell's reading of the command line are not modelled. Their outcome is the input `Env.run`, one outcome per command line. A `setup` runs each command at most once, so re-running a command never needs a second answer.
- `vscode.window.showWarningMessage` is not modelled. The model records a `Warned` event instead.
- `Configuration.getPythonPath`, `getSphinxPath` and `getLinterPath`, and `fileExists`, are foreign calls. They are fixed at construction (the interpreter path) or passed in as `Env`.
- The `Logger1.log` calls are left out. Logging has no observable contract here.
- `awaitReady` is left out: its point is polling every 500 ms and resolving a promise. Only its condition, `IsReady()`, is modelled.
- The promise structure is left out. `setup` runs as one sequential method, to its end or to the version probe's error. The model does not cover two `exec` calls in flight at once, or the unhandled rejection of the `setup` that the constructor starts without awaiting.
- The contents of `error.stack` and the other outcome strings are opaque inputs. When `stack` is undefined, `join` renders it as "", which the model keeps.
- `NumberParse.ParseInt` returns the exact integer, not the nearest double. It does not model the optional loss of digits beyond the twentieth significant one, or the value -0. None of these changes whether the result equals 2 or 3, which is all the source uses it for.
- Characters are Unicode scalar values rather than UTF-16 code units. Every character `parseInt` treats specially lies in the Basic Multilingual Plane.
