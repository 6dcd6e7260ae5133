# dosbox-interface: launcher and configuration serialiser

This project models the two files of the `dosbox-interface` library that hold its logic, and
proves properties of the model in Dafny.

- `src/dosbox_conf.ts`: the DOSBox configuration object (`dosboxConf`) and its serialiser
  `stringfy`. The serialiser runs the `ini` library's `stringify`. It then deletes each
  match of the regular expression `/autoexec\[\]=(.*)\n/g`: from the key `autoexec[]=` through
  a line feed, when no other line terminator comes first. When the
  `autoexec` list is non-empty, it appends `EOL [AUTOEXEC] EOL` followed by the commands joined
  by `EOL`.
- `src/dosbox_core.ts`: the `DOSBox` launcher. Its parts are:
  - the console strategy (`normal`, `min`, `noconsole`) and the `redirect` getter;
  - the per-platform command template `OpenDosboxCmd`;
  - `runCommand`, which puts up to ten boot commands on the command line as `-c "<cmd>"` flags
    and routes more than ten into the configuration's autoexec list;
  - `run`, which builds the command string;
  - the completion callback, which assembles `{stdout, stderr, exitcode}` and, under the
    redirect strategy, appends the text recovered from `stdout.txt` and `stderr.txt`.

Files:

| file | module | contents |
|---|---|---|
| `wrappers.dfy` | `Wrappers` | `Option`, `Result` |
| `text.dfy` | `Text` | `startsWith`, `indexOf`, `includes`, `join`, `split`, with the split/join round trip |
| `dosbox_conf.dfy` | `DosboxConf` | configuration value and object, the regex strip, `stringfy`, the stand-in for `ini.stringify`, the defaults |
| `dosbox_core.dfy` | `DosboxCore` | the `DOSBox` class, routing, command building, console recovery, result assembly |

The host is passed in as plain inputs:

- `process.platform` is a `Platform`, fixed when the object is made.
- `os.EOL` is a parameter `eol`.
- `process.cwd()` is a parameter of the constructor.
- `fs.existsSync` is a flag.
- Whether `fs.writeFileSync` throws at the destination is a flag.
- `readdirSync`/`readFileSync` become a `Folder`: a listing plus a map from name to contents.
- An `ExecResult` holds what the completion callback sees. Three of its parts are what
  `cp.exec` passes: the error flag and the buffered stdout/stderr text. The fourth is the
  exit code: the callback reads it from the closure variable that the `exit` listener sets.
  At callback time it may be `Undefined`, `Null` or a number.

`runCommand` returns what it would write (`ConfigWrite`) and the exact command string. It does
not perform the write or spawn the process.

JavaScript semantics the model keeps:

- **Truthiness.** An empty `conf` path behaves as no `conf`. An empty `cwd` counts as no `cwd`.
  An empty recovered file adds nothing and fires no handler. `run('')` behaves as `run()`.
- **`String.prototype.replace` with a string pattern.** Only the first `${args}` is replaced.
  `$$`, `$&`, `` $` `` and `$'` in the replacement are expanded (`GetSubstitution`). So a
  parameter containing `$&` puts the placeholder back (`DollarAmpersandReinsertsPlaceholder`).
- **The regex.** `.` excludes `\n`, `\r`, U+2028 and U+2029. The greedy `(.*)` therefore
  matches only when the first line terminator after `autoexec[]=` is a line feed. A line that
  ends in CR LF is kept (`StripKeepsCrLfLine`).

Behaviour of the code that the model states exactly:

- **Lost commands.** Over the threshold, a supplied object whose `autoexec` is already an
  array, even `[]`, is left unchanged, because the `concat` result is discarded. The commands
  then appear neither as flags nor in the file (`CommandsLostWhenAutoexecPresent`,
  `OverThresholdNoInlineFlags`).
- **Mutated caller object.** A supplied object without `autoexec` gets the commands assigned
  in place (`DOSBox.RunCommand`, `RoutedAutoexec`).
- **No `cwd`, no file.** Without a truthy `cwd` no file is written, so routed commands vanish
  (`RoutedCommandsDroppedWithoutCwd`).
- **String `conf` over the threshold.** Assigning `autoexec` to a string throws a `TypeError`
  before anything runs. The result is `Err` and `_count` is unchanged. With ten or fewer
  commands, the string is handed to the serialiser. That serialised text is outside the
  model.
- **Shadowed accumulators.** The callback's `stdout`/`stderr` parameters shadow the streaming
  accumulators. The result therefore starts from exec's buffered text (`BufferedTextLeads`).
- **Handler arguments.** The recovery handlers receive the recovered chunk as both message and
  text (`Completion`).
- **Failed write.** `fs.writeFileSync` throwing ends `runCommand` before `run`. `_count` is
  unchanged, but the caller's object has already been given its `autoexec`
  (`DOSBox.RunCommand`).
- **No merge with the defaults.** `runCommand` serialises the caller's object as given, and
  nothing is merged into the defaults. Sections the object lacks do not appear in the file.
- **Recovered text.** Text recovered from `stdout.txt` and `stderr.txt` is appended to exec's
  buffered text. It is not appended to the streamed accumulators.

## Model

| member | source | states |
|---|---|---|
| `DosboxCore.FromdirRedirect` | src/dosbox_core.ts:37-57 | after `Fromdir`, `redirect` holds exactly when the platform is `win32` and the console option is absent or `noconsole` (the default is `noconsole`; it is overridden only when supplied) |
| `DosboxCore.RedirectFor` | src/dosbox_core.ts:55-57 | `redirect` holds only on win32 with the console the plain `dosbox` template goes with |
| `DosboxCore.DOSBox.Redirect` | src/dosbox_core.ts:55-57 | the getter holds exactly when the platform is `win32` and the console is `noconsole` |
| `DosboxCore.OpenDosboxCmd` | src/dosbox_core.ts:211-226 | `start/min/wait "" dosbox` exactly for win32 with `min`, `open -a DOSBox --args` exactly for darwin, and no template contains `${args}` |
| `DosboxCore.FromdirTemplate` | src/dosbox_core.ts:211-226 | the template is `start/min/wait "" dosbox` on win32 with `min`, `dosbox` on win32 otherwise, `open -a DOSBox --args` on darwin and `dosbox` elsewhere; none contains `${args}` |
| `DosboxCore.DOSBox.constructor` | src/dosbox_core.ts:49-63 | a new object has the given template, `cwd = process.cwd()`, console `noconsole` and `_count = 0` |
| `DosboxCore.DOSBox.Fromdir` | src/dosbox_core.ts:37-46 | the template is chosen with `min` exactly when `winConsole === min`; the console is set only when an option is supplied; `cwd` is the argument, even when undefined |
| `DosboxCore.ArgString` | src/dosbox_core.ts:108-111 | the argument string starts with `" -noconsole "` under redirect and `" "` otherwise; truthy parameters end it; otherwise it is just that start |
| `DosboxCore.GetSubstitution` | src/dosbox_core.ts:114 | a replacement with no `$` is inserted unchanged |
| `DosboxCore.CommandFor` | src/dosbox_core.ts:112-117 | without a placeholder the arguments are appended to the template; with one, the template text before and after the first placeholder is kept |
| `DosboxCore.DOSBox.ReplaceOrAppend` | src/dosbox_core.ts:112-117 | the command built by `includes`/`replace` or concatenation is `CommandFor` of the template and the arguments |
| `DosboxCore.DOSBox.Run` | src/dosbox_core.ts:107-119 | the command is the template with its first `${args}` replaced by the argument string, or the template with the argument string appended; the run is counted once |
| `DosboxCore.DOSBox.Version` | src/dosbox_core.ts:65-67 | `version()` is `run('-version')` |
| `DosboxCore.FromdirCommandLine` | src/dosbox_core.ts:107-117 | for an object made by `Fromdir`, the command is the template, then `" -noconsole "` under redirect or `" "`, then the parameters when non-empty |
| `Text.IndexFrom` | src/dosbox_core.ts:113-114 | the index found is an occurrence and no earlier position is one; `None` means no occurrence at all |
| `DosboxCore.PlaceholderReplacedOnce` | src/dosbox_core.ts:113-114 | only the first `${args}` is replaced; the rest of the template, later placeholders included, is kept |
| `DosboxCore.SubstitutionLiteralPrefix` | src/dosbox_core.ts:114 | replacement text without `$` is inserted verbatim |
| `DosboxCore.DollarAmpersandReinsertsPlaceholder` | src/dosbox_core.ts:114 | `$&` in the parameters is replaced by `${args}` itself in the command |
| `DosboxCore.Params` | src/dosbox_core.ts:71-103 | the path flag and the caller's parameters lead; the length counts each part; the config-file flag comes last when a file is written |
| `DosboxCore.RoutedAutoexec` | src/dosbox_core.ts:85-91 | an `autoexec` already present is kept; it is set to exactly the commands when it was absent and there are more than ten; otherwise it stays absent |
| `DosboxCore.WrittenData` | src/dosbox_core.ts:81-100 | the data written is the caller's object serialised by `toString`, the path string for a non-empty path, or `{autoexec: boxcmd}` serialised when `opt.conf` is absent or empty |
| `DosboxCore.InlineFlags` | src/dosbox_core.ts:92-95 | one `-c "<cmd>"` per command, same length, in input order, no escaping |
| `DosboxCore.OverThresholdNoInlineFlags` | src/dosbox_core.ts:85-95 | with more than ten commands the parameters are only the path flag, the caller's parameters and the config-file flag; a command's flag appears only if the caller passed it |
| `DosboxCore.InlineFlagsInOrder` | src/dosbox_core.ts:71-103 | with 1 to 10 commands the order is: path flag, caller's parameters, one flag per command in order, config-file flag |
| `DosboxCore.NoCommandsNoRouting` | src/dosbox_core.ts:85-97 | with no commands there are no command flags, and a file is written exactly for a truthy `conf` with a truthy `cwd` |
| `DosboxCore.RoutedCommandsDroppedWithoutCwd` | src/dosbox_core.ts:97-102 | without a truthy `cwd` nothing is written and routed commands appear nowhere on the command line |
| `DosboxCore.CommandsLostWhenAutoexecPresent` | src/dosbox_core.ts:86-87 | an `autoexec` already present, even `[]`, is kept over the threshold; with `[]` the written text gets no AUTOEXEC block |
| `DosboxCore.RoutedCommandsWrittenInOrder` | src/dosbox_core.ts:85-101 | with no `conf` and more than ten commands, the file is exactly `EOL [AUTOEXEC] EOL` plus the commands joined by `EOL`, and they read back in order |
| `DosboxCore.DOSBox.RouteCommands` | src/dosbox_core.ts:71-95 | the path flag (only for an existing non-empty path), the caller's parameters, then the inline flags; the caller's object gets `autoexec` only when it had none; a string `conf` over the threshold throws |
| `DosboxCore.DOSBox.RunCommand` | src/dosbox_core.ts:70-104 | it throws exactly for a string `conf` over the threshold (a `TypeError`) or a failing write of the config file (at that path); then nothing runs and `_count` is unchanged; otherwise the parameters, the config write, the command and the outcome are as routed, and `_count` goes up by one |
| `DosboxCore.WinReadConsole` | src/dosbox_core.ts:188-200 | two entries: `stdout.txt` then `stderr.txt`, each present exactly when its name is listed and then equal to its contents; reading a listed entry that is not a readable file, or an unlistable folder, throws |
| `DosboxCore.Completion` | src/dosbox_core.ts:142-165 | without recovery the record is exec's buffered text and exit code; with recovery it appends the recovered text, one handler call per non-empty file; a failed recovery read throws; an exec error rejects with the note |
| `DosboxCore.DOSBox.RunViaChildProcess` | src/dosbox_core.ts:131-165 | `_count` goes up by exactly one and the outcome is the completion with recovery exactly when `redirect` holds and `cwd` is truthy |
| `DosboxCore.BufferedTextLeads` | src/dosbox_core.ts:142-154 | exec's buffered stdout and stderr are prefixes of the result, and all of it without recovery; the exit code passes through |
| `DosboxCore.ErrorRejectsWithSameRecord` | src/dosbox_core.ts:154-164 | an exec error changes only the delivery: resolve with a record exactly when the error case rejects with the note and the same record |
| `DosboxCore.FailureKeepsPartialOutput` | src/dosbox_core.ts:142-159 | a failed exec that settles rejects with `try to open DOSBox failed`; the record starts with exec's buffered text and keeps its exit code, and is exactly that text without recovery |
| `DosboxCore.FailureKeepsRecoveredText` | src/dosbox_core.ts:143-159 | under recovery a failed run's record carries the recovered text after exec's: buffered `a` plus `b` in `stdout.txt` rejects with stdout `ab` |
| `DosboxCore.EchoHiScenario` | src/dosbox_core.ts:142-163 | a win32 `Fromdir` object running `echo hi`, with `hi\n` in `stdout.txt` and exit code 0, runs `dosbox -noconsole -c "echo hi"` and resolves `{stdout: "hi\n", stderr: "", exitcode: 0}` |
| `DosboxConf.ConfObject.constructor` | src/dosbox_conf.ts:8-98 | a new configuration object holds the default sections and `autoexec = []` |
| `DosboxConf.ConfObject.Literal` | src/dosbox_core.ts:89 | an object literal holds exactly the sections and `autoexec` it is written with |
| `DosboxConf.DefaultInstance` | src/dosbox_conf.ts:8-98 | the defaults have thirteen sections, `cpu.cycles = 'auto'`, `sdl.fullscreen = false` and `autoexec = []`, so serialising them appends no block |
| `DosboxConf.ConfObject.ToString` | src/dosbox_conf.ts:99-101 | `toString()` is `stringfy(this)`: the stripped INI text is its prefix, and it is all of it exactly when `autoexec` is absent or empty |
| `DosboxConf.MatchAt` | src/dosbox_conf.ts:104 | a match is the key `autoexec[]=`, a run of non-terminator characters and a line feed; `None` means no match starts here |
| `DosboxConf.Strip` | src/dosbox_conf.ts:104 | a length bound only (the strip never lengthens the text); its behaviour is stated by the `Strip…` lemmas below |
| `DosboxConf.MatchUnique` | src/dosbox_conf.ts:104 | at most one match starts at a position, so the greedy match is the only one |
| `DosboxConf.StripWithoutKey` | src/dosbox_conf.ts:104 | text containing no `autoexec[]=` passes through unchanged |
| `DosboxConf.StripWithoutLineFeed` | src/dosbox_conf.ts:104 | text without a line feed passes through unchanged |
| `DosboxConf.StripDeletesLine` | src/dosbox_conf.ts:104 | an `autoexec[]=<c>` line ending in a line feed is deleted whole and scanning resumes after it |
| `DosboxConf.NoMatchBeforeCr` | src/dosbox_conf.ts:104 | no match starts at the front of a text whose first line terminator is a carriage return |
| `DosboxConf.StripKeepsCrTerminated` | src/dosbox_conf.ts:104 | a prefix without a line feed that ends in a carriage return is kept whole |
| `DosboxConf.StripKeepsCrLfLine` | src/dosbox_conf.ts:104 | an `autoexec[]=<c>` line ending in CR LF is not deleted |
| `DosboxConf.MatchWithin` | src/dosbox_conf.ts:104 | a match at the front of `a + b`, where `a` ends at a line terminator, is the match at the front of `a` |
| `DosboxConf.StripSplitsAfterTerminator` | src/dosbox_conf.ts:104 | text ending at a line terminator strips independently of what follows it |
| `DosboxConf.StripKeepsKeyFreePrefix` | src/dosbox_conf.ts:104 | a prefix at none of whose positions `autoexec[]=` begins is kept whole |
| `DosboxConf.StripDeletesAfterPrefix` | src/dosbox_conf.ts:104 | the strip is unanchored: an `autoexec[]=<c>` line ending in a line feed is deleted after a prefix in which `autoexec[]=` begins nowhere, and that prefix is kept |
| `DosboxConf.StripMidLine` | src/dosbox_conf.ts:104 | `x autoexec[]=a\n` followed by `y` strips to `x y` |
| `DosboxConf.StripDeletesArrayLines` | src/dosbox_conf.ts:103-104 | the `autoexec[]=` lines the stand-in emits for the array are all deleted |
| `DosboxConf.StandInStripsAutoexec` | src/dosbox_conf.ts:103-104 | for the stand-in with commands, stripping leaves the separating line feed (when there are sections) followed by the section text, stripped in turn |
| `DosboxConf.IniStringify` | src/dosbox_conf.ts:103 | stand-in for `ini.stringify`: the `autoexec[]=` lines lead, the section text ends the output, and with no commands the output is the section text |
| `DosboxConf.PostProcess` | src/dosbox_conf.ts:103-109 | the stripped text always leads, and it is all of the result exactly when `autoexec` is absent or empty |
| `DosboxConf.Stringfy` | src/dosbox_conf.ts:102-110 | `stringfy(conf)`: the stripped INI text always leads, and it is all of the result exactly when `autoexec` is absent or empty |
| `DosboxConf.AutoexecBlockExact` | src/dosbox_conf.ts:105-108 | with commands the result is exactly stripped text + EOL + `[AUTOEXEC]` + EOL + the commands joined by EOL, with nothing after the last |
| `DosboxConf.AutoexecRoundTrip` | src/dosbox_conf.ts:105-108 | reading the block after the stripped text gives the commands back in their original order, for commands without line feeds and EOL `\n` or `\r\n` |
| `Text.SplitJoin` | src/dosbox_conf.ts:107 | splitting the joined commands on the separator gives them back when no command holds the separator |

## Left out

- Process spawning (`cp.exec`) is not modelled. Its result is an input.
- The `data` streaming handlers on non-Windows platforms (src/dosbox_core.ts:170-179) are
  left out. Their accumulators are shadowed in the callback and never reach the result.
- The timing of the `exit` event against the callback is left out. The exit code the callback
  sees is an input.
- The callback reads `this.redirect`, `this.cwd` and `this._count` when exec completes
  (src/dosbox_core.ts:143-150). The model takes all three when the run starts: the recovery
  decision from `redirect` and `cwd`, and the handler call number from the counter after this
  run's increment. A change to `cwd` or the console made while a run is pending, or an
  interleaved run, is not captured.
- File-system effects are inputs and outputs, not actions. `existsSync` and the failure of
  `writeFileSync` are flags.
  `readdirSync`/`readFileSync` are a `Folder`. `writeFileSync` is the returned `ConfigWrite`.
- The internals of `ini.stringify` are not visible. `IniStringify` is a stand-in: array lines
  first, then `[section]` blocks, `\n` line ends, no escaping. Only the post-processing is
  proved. Whether the real library ends lines with CR LF on Windows is not part of this model.
  `StripKeepsCrLfLine` shows that such lines would survive the strip.
- The text `ini.stringify` makes of a string `conf` is opaque (`StringifiedPath`).
- `path.resolve` is a stand-in (`ConfFilePath`): the directory, a separator, then
  `node_dosbox.conf`. It does no normalisation and no resolution against the process
  directory.
- The `child_processError` self-reference on the rejected error object is not modelled. The
  modelled rejection carries the note and the output.
- Strings are sequences of Unicode scalar values, not UTF-16 code units.
- `Strip`'s own contract is only a length bound. What it does is stated by the lemmas in
  the table from `MatchAt` to `StripDeletesArrayLines`.
- `MAX_DOSBOX_COMMAND` is a writable public static field in the source (src/dosbox_core.ts:35).
  The model fixes it as the constant 10 and does not capture a caller reassigning it.
- `RouteCommands` and `RunCommand` store a copy of the command list (`Some(boxcmd)`) in the
  caller's object. The source stores a reference to the caller's own array
  (src/dosbox_core.ts:87), so a later change to that array also changes `conf.autoexec`. This
  aliasing is not captured.
- The error `fs.writeFileSync` raises is not modelled beyond the path it was writing.
- `src/index.ts` is not part of this model. `whereIsDosbox` is an unused shell call, and the
  re-exports name a `BoxConf` that does not exist. `src/test.ts` and `src/test2.js` are example
  drivers and are not part of this model either.
