/** The launcher of src/dosbox_core.ts: the `DOSBox` object, how `runCommand` routes boot
    commands into `-c` flags or the configuration's autoexec list, how `run` builds the command
    line, and how the completion callback assembles the result.

    The host is passed in: `process.platform` is a `Platform`, the file system is a flag saying
    whether a path exists and a `Folder` listing, and the child process is an `ExecResult`. */
module DosboxCore {
  import opened Wrappers
  import opened Text
  import opened DosboxConf

  datatype Platform = Win32 | Darwin | OtherPlatform

  /** `WINCONSOLEOPTION`: what DOSBox does with its console on Windows. */
  datatype WinConsole = Normal | Min | NoConsole

  /** `DOSBox.MAX_DOSBOX_COMMAND`: more commands than this go to the autoexec list. */
  const MAX_DOSBOX_COMMAND: nat := 10
  const ARGS_PLACEHOLDER := "${args}"
  const CONF_FILE_NAME := "node_dosbox.conf"
  const FAILURE_NOTE := "try to open DOSBox failed"
  const STDOUT_FILE := "stdout.txt"
  const STDERR_FILE := "stderr.txt"

  /** JavaScript truthiness of an optional string: defined and not empty. */
  predicate Truthy(s: Option<string>) {
    s.Some? && s.value != ""
  }

  // ---------------------------------------------------------------------------------------
  // Console strategy and the command template

  /** The `redirect` getter: DOSBox writes its console to files only on Windows with `noconsole`. */
  predicate RedirectFor(platform: Platform, console: WinConsole)
    ensures RedirectFor(platform, console) ==>
              platform == Win32 && OpenDosboxCmd(platform, console == Min) == "dosbox"
  {
    platform == Win32 && console == NoConsole
  }

  /** `OpenDosboxCmd(min)`: the base command for the platform. No template holds the `${args}`
      placeholder, so `run` always appends its arguments. */
  function OpenDosboxCmd(platform: Platform, min: bool): (r: string)
    ensures r == "start/min/wait \"\" dosbox" <==> platform == Win32 && min
    ensures r == "open -a DOSBox --args" <==> platform == Darwin
    ensures !Contains(r, ARGS_PLACEHOLDER)
  {
    var r := match platform
      case Win32 => if min then "start/min/wait \"\" dosbox" else "dosbox"
      case Darwin => "open -a DOSBox --args"
      case OtherPlatform => "dosbox";
    assert '$' !in r;
    AbsentFirstChar(r, ARGS_PLACEHOLDER);
    r
  }

  /** The console `Fromdir` leaves on the new object: the default unless one is supplied. */
  function FromdirConsole(winConsole: Option<WinConsole>): WinConsole {
    if winConsole.Some? then winConsole.value else NoConsole
  }

  /** After `Fromdir`, `redirect` holds exactly on Windows when no console option, or
      `noconsole`, was supplied. */
  lemma FromdirRedirect(platform: Platform, winConsole: Option<WinConsole>)
    ensures RedirectFor(platform, FromdirConsole(winConsole)) <==>
              platform == Win32 && (winConsole.None? || winConsole == Some(NoConsole))
  {
  }

  /** The template `Fromdir` picks, and that none of them holds the `${args}` placeholder. */
  lemma FromdirTemplate(platform: Platform, winConsole: Option<WinConsole>)
    ensures var core := OpenDosboxCmd(platform, winConsole == Some(Min));
      (platform == Win32 && winConsole == Some(Min) ==> core == "start/min/wait \"\" dosbox") &&
      (platform == Win32 && winConsole != Some(Min) ==> core == "dosbox") &&
      (platform == Darwin ==> core == "open -a DOSBox --args") &&
      (platform == OtherPlatform ==> core == "dosbox") &&
      !Contains(core, ARGS_PLACEHOLDER)
  {
  }

  // ---------------------------------------------------------------------------------------
  // The command line built by `run`

  /** The argument string of `run`: a leading space (with `-noconsole` under redirect),
      then the parameters when they are a non-empty string. */
  function ArgString(redirect: bool, parameters: Option<string>): (r: string)
    ensures StartsWith(r, if redirect then " -noconsole " else " ")
    ensures Truthy(parameters) ==>
              |parameters.value| < |r| && r[|r| - |parameters.value|..] == parameters.value
    ensures !Truthy(parameters) ==> r == (if redirect then " -noconsole " else " ")
  {
    (if redirect then " -noconsole " else " ") + (if Truthy(parameters) then parameters.value else "")
  }

  /** What one `$` pattern of a replacement string stands for. */
  function Expansion(c: char, matched: string, before: string, after: string): string {
    if c == '$' then "$"
    else if c == '&' then matched
    else if c == '`' then before
    else after
  }

  /** No `$` in `s`, stated character by character. */
  predicate DollarFree(s: string) {
    s == [] || (s[0] != '$' && DollarFree(s[1..]))
  }

  /** `DollarFree` says exactly that `$` does not occur. */
  lemma {:induction false} DollarFreeIff(s: string)
    ensures DollarFree(s) <==> '$' !in s
  {
    if s != [] {
      DollarFreeIff(s[1..]);
      assert s == [s[0]] + s[1..];
    }
  }

  /** The replacement text `String.prototype.replace` inserts for a string pattern: `$$`,
      `$&`, `` $` `` and `$'` are expanded; every other `$` is literal (a string pattern has no
      capture groups). */
  function GetSubstitution(rep: string, matched: string, before: string, after: string): (r: string)
    ensures DollarFree(rep) ==> r == rep
    decreases |rep|
  {
    if rep == [] then []
    else if |rep| >= 2 && rep[0] == '$' && rep[1] in "$&`'" then
      Expansion(rep[1], matched, before, after) + GetSubstitution(rep[2..], matched, before, after)
    else [rep[0]] + GetSubstitution(rep[1..], matched, before, after)
  }

  lemma DollarFreeTail(s: string)
    requires s != [] && '$' !in s
    ensures '$' !in s[1..]
  {
    forall k | 0 <= k < |s[1..]| ensures s[1..][k] != '$' {
      assert s[1..][k] == s[k + 1];
      assert s[k + 1] in s;
    }
  }

  /** The step of the expansion that copies a leading character other than `$`. */
  lemma SubstitutionCopiesLiteral(c: char, rest: string, matched: string, before: string, after: string)
    requires c != '$'
    ensures GetSubstitution([c] + rest, matched, before, after) ==
              [c] + GetSubstitution(rest, matched, before, after)
  {
    assert ([c] + rest)[1..] == rest;
  }

  /** A replacement without `$` is inserted as it is, after any literal prefix. */
  lemma {:induction false} SubstitutionLiteralPrefix(pre: string, rep: string, matched: string,
                                                   before: string, after: string)
    requires '$' !in pre
    ensures GetSubstitution(pre + rep, matched, before, after) ==
              pre + GetSubstitution(rep, matched, before, after)
  {
    if pre != [] {
      assert pre + rep == [pre[0]] + (pre[1..] + rep);
      SubstitutionCopiesLiteral(pre[0], pre[1..] + rep, matched, before, after);
      DollarFreeTail(pre);
      SubstitutionLiteralPrefix(pre[1..], rep, matched, before, after);
      assert [pre[0]] + pre[1..] == pre;
    } else {
      assert pre + rep == rep;
    }
  }

  /** `core.replace('${args}', args)` when the template holds the placeholder, else `core + args`. */
  function CommandFor(core: string, args: string): (r: string)
    ensures !Contains(core, ARGS_PLACEHOLDER) ==> r == core + args
    ensures Contains(core, ARGS_PLACEHOLDER) ==>
              var i := IndexOf(core, ARGS_PLACEHOLDER).value;
              var after := core[i + |ARGS_PLACEHOLDER|..];
              core[..i] <= r && |after| <= |r| && r[|r| - |after|..] == after
  {
    match IndexOf(core, ARGS_PLACEHOLDER)
    case Some(i) =>
      core[..i] +
      GetSubstitution(args, ARGS_PLACEHOLDER, core[..i], core[i + |ARGS_PLACEHOLDER|..]) +
      core[i + |ARGS_PLACEHOLDER|..]
    case None => core + args
  }

  /** Only the first placeholder is replaced; the text after it, later placeholders included,
      is kept. */
  lemma PlaceholderReplacedOnce(core: string, args: string)
    requires Contains(core, ARGS_PLACEHOLDER) && '$' !in args
    ensures var i := IndexOf(core, ARGS_PLACEHOLDER).value;
      (forall j :: 0 <= j < i ==> !StartsWith(core[j..], ARGS_PLACEHOLDER)) &&
      StartsWith(core[i..], ARGS_PLACEHOLDER) &&
      CommandFor(core, args) == core[..i] + args + core[i + |ARGS_PLACEHOLDER|..]
  {
    DollarFreeIff(args);
  }

  /** `$&` in the parameters reinserts the placeholder itself instead of the two characters. */
  lemma DollarAmpersandReinsertsPlaceholder(core: string, pre: string, post: string)
    requires Contains(core, ARGS_PLACEHOLDER) && '$' !in pre && '$' !in post
    ensures var i := IndexOf(core, ARGS_PLACEHOLDER).value;
      CommandFor(core, pre + "$&" + post) ==
        core[..i] + pre + ARGS_PLACEHOLDER + post + core[i + |ARGS_PLACEHOLDER|..]
  {
    var i := IndexOf(core, ARGS_PLACEHOLDER).value;
    SubstitutionOfAmpersand(pre, post, ARGS_PLACEHOLDER, core[..i], core[i + |ARGS_PLACEHOLDER|..]);
  }

  /** `$&` between two `$`-free texts expands to the matched text. */
  lemma SubstitutionOfAmpersand(pre: string, post: string, matched: string, before: string, after: string)
    requires '$' !in pre && '$' !in post
    ensures GetSubstitution(pre + "$&" + post, matched, before, after) == pre + matched + post
  {
    var rest := "$&" + post;
    assert pre + "$&" + post == pre + rest;
    SubstitutionLiteralPrefix(pre, rest, matched, before, after);
    assert GetSubstitution(rest, matched, before, after) ==
             matched + GetSubstitution(post, matched, before, after) by {
      assert rest[2..] == post;
    }
    SubstitutionLiteralPrefix(post, [], matched, before, after);
    assert post + [] == post;
  }

  /** For an object made by `Fromdir` the arguments are appended to the template. */
  lemma FromdirCommandLine(platform: Platform, winConsole: Option<WinConsole>, parameters: Option<string>)
    ensures var core := OpenDosboxCmd(platform, winConsole == Some(Min));
      CommandFor(core, ArgString(RedirectFor(platform, FromdirConsole(winConsole)), parameters)) ==
        core + (if RedirectFor(platform, FromdirConsole(winConsole)) then " -noconsole " else " ") +
        (if Truthy(parameters) then parameters.value else "")
  {
    FromdirTemplate(platform, winConsole);
  }

  // ---------------------------------------------------------------------------------------
  // Command routing in `runCommand`

  /** `DOSBoxOption.conf`: absent, a path string, or a configuration object held by reference. */
  datatype ConfOption = NoConf | ConfPath(path: string) | ConfObj(obj: ConfObject)

  /** `DOSBoxOption`; an absent option behaves as `DOSBoxOption(NoConf, None)`. */
  datatype DOSBoxOption = DOSBoxOption(conf: ConfOption, param: Option<seq<string>>)

  /** `opt.conf` is truthy: an object, or a non-empty path. */
  predicate ConfTruthy(c: ConfOption) {
    c.ConfObj? || (c.ConfPath? && c.path != "")
  }

  function ConfObjects(c: ConfOption): set<object> {
    if c.ConfObj? then {c.obj} else {}
  }

  /** One inline command flag, quoted verbatim. */
  function CFlag(cmd: string): string {
    "-c \"" + cmd + "\""
  }

  function ConfFlag(path: string): string {
    "-conf \"" + path + "\""
  }

  /** `boxcmd.map(mapper)`: one flag per command, in order. */
  function InlineFlags(cmds: seq<string>): (r: seq<string>)
    ensures |r| == |cmds|
    ensures forall i :: 0 <= i < |cmds| ==> r[i] == CFlag(cmds[i])
  {
    if cmds == [] then [] else [CFlag(cmds[0])] + InlineFlags(cmds[1..])
  }

  /** 1. `-conf "<path>"` for a non-empty path string that exists. */
  function ConfPathFlags(opt: DOSBoxOption, confExists: bool): seq<string> {
    if opt.conf.ConfPath? && opt.conf.path != "" && confExists then [ConfFlag(opt.conf.path)] else []
  }

  /** 2. The caller's own parameters. */
  function ExtraParams(opt: DOSBoxOption): seq<string> {
    if opt.param.Some? && |opt.param.value| > 0 then opt.param.value else []
  }

  /** 3. The inline flags, only within the threshold. */
  function CommandFlags(boxcmd: seq<string>): seq<string> {
    if |boxcmd| > MAX_DOSBOX_COMMAND then [] else InlineFlags(boxcmd)
  }

  /** A configuration value exists (given, or created for routed commands) and `cwd` is truthy. */
  predicate WritesConf(boxcmd: seq<string>, opt: DOSBoxOption, cwd: Option<string>) {
    (ConfTruthy(opt.conf) || |boxcmd| > MAX_DOSBOX_COMMAND) && Truthy(cwd)
  }

  /** Stand-in for `path.resolve(cwd, 'node_dosbox.conf')`. */
  function ConfFilePath(platform: Platform, dir: string): string {
    dir + (if platform == Win32 then "\\" else "/") + CONF_FILE_NAME
  }

  /** 4. `-conf "<cwd>/node_dosbox.conf"` when the file is written. */
  function ConfFileFlags(boxcmd: seq<string>, opt: DOSBoxOption, platform: Platform, cwd: Option<string>): seq<string> {
    if WritesConf(boxcmd, opt, cwd) then [ConfFlag(ConfFilePath(platform, cwd.value))] else []
  }

  /** The `param` array of `runCommand`, in push order. */
  function Params(boxcmd: seq<string>, opt: DOSBoxOption, confExists: bool, platform: Platform,
                  cwd: Option<string>): (r: seq<string>)
    ensures ConfPathFlags(opt, confExists) + ExtraParams(opt) <= r
    ensures |r| == |ConfPathFlags(opt, confExists)| + |ExtraParams(opt)| +
                   (if |boxcmd| <= MAX_DOSBOX_COMMAND then |boxcmd| else 0) +
                   (if WritesConf(boxcmd, opt, cwd) then 1 else 0)
    ensures WritesConf(boxcmd, opt, cwd) ==> r[|r| - 1] == ConfFlag(ConfFilePath(platform, cwd.value))
  {
    ConfPathFlags(opt, confExists) + ExtraParams(opt) + CommandFlags(boxcmd) +
    ConfFileFlags(boxcmd, opt, platform, cwd)
  }

  /** Over the threshold a path string makes `conf.autoexec = boxcmd` assign to a string
      primitive, which throws in strict mode. */
  predicate ThrowsOnStringConf(boxcmd: seq<string>, opt: DOSBoxOption) {
    |boxcmd| > MAX_DOSBOX_COMMAND && opt.conf.ConfPath? && opt.conf.path != ""
  }

  function TypeErrorMessage(path: string): string {
    "Cannot create property 'autoexec' on string '" + path + "'"
  }

  /** The caller's `autoexec` after routing: set to the commands only when over the threshold
      and absent; an existing array, even an empty one, is kept (the `concat` result is discarded). */
  function RoutedAutoexec(prior: Option<seq<string>>, boxcmd: seq<string>): (r: Option<seq<string>>)
    ensures prior.Some? ==> r == prior
    ensures r.None? <==> prior.None? && |boxcmd| <= MAX_DOSBOX_COMMAND
    ensures r.Some? && prior.None? ==> r.value == boxcmd
  {
    if |boxcmd| > MAX_DOSBOX_COMMAND && prior.None? then Some(boxcmd) else prior
  }

  /** The text `runCommand` writes: a string configuration is serialised as the string itself,
      which is outside this model. */
  datatype ConfData = Serialised(text: string) | StringifiedPath(path: string)

  datatype ConfigWrite = ConfigWrite(path: string, data: ConfData)

  /** What is written for the configuration value `conf` ends up holding: the caller's object,
      the path string, or (an absent or empty `opt.conf`) the literal `{autoexec: boxcmd}`. */
  function WrittenData(c: ConfOption, boxcmd: seq<string>, eol: string): (r: ConfData)
    reads ConfObjects(c)
    ensures r.StringifiedPath? <==> c.ConfPath? && c.path != ""
    ensures r.StringifiedPath? ==> r.path == c.path
    ensures c.ConfObj? ==> r == Serialised(c.obj.ToString(eol))
    ensures !ConfTruthy(c) ==> r == Serialised(Stringfy(Conf([], Some(boxcmd)), eol))
  {
    if c.ConfObj? then Serialised(Stringfy(c.obj.Value(), eol))
    else if c.ConfPath? && c.path != "" then StringifiedPath(c.path)
    else Serialised(Stringfy(Conf([], Some(boxcmd)), eol))
  }

  /** Over the threshold no flag of the commands is produced: a command reaches the command line
      only if the caller's own parameters already hold its flag. */
  lemma OverThresholdNoInlineFlags(boxcmd: seq<string>, opt: DOSBoxOption, confExists: bool,
                                   platform: Platform, cwd: Option<string>)
    requires |boxcmd| > MAX_DOSBOX_COMMAND
    ensures Params(boxcmd, opt, confExists, platform, cwd) ==
              ConfPathFlags(opt, confExists) + ExtraParams(opt) + ConfFileFlags(boxcmd, opt, platform, cwd)
    ensures forall i :: 0 <= i < |boxcmd| && CFlag(boxcmd[i]) in Params(boxcmd, opt, confExists, platform, cwd) ==>
              CFlag(boxcmd[i]) in ExtraParams(opt)
  {
    forall x, y ensures CFlag(x) != ConfFlag(y) {
      assert CFlag(x)[2] == ' ' && ConfFlag(y)[2] == 'o';
    }
  }

  /** Within the threshold (ten included) each command becomes one flag, in order, between the
      caller's parameters and the configuration-file flag. */
  lemma InlineFlagsInOrder(boxcmd: seq<string>, opt: DOSBoxOption, confExists: bool,
                           platform: Platform, cwd: Option<string>)
    requires 0 < |boxcmd| <= MAX_DOSBOX_COMMAND
    ensures var before := ConfPathFlags(opt, confExists) + ExtraParams(opt);
      var ps := Params(boxcmd, opt, confExists, platform, cwd);
      |before| + |boxcmd| <= |ps| && ps[..|before|] == before &&
      (forall i :: 0 <= i < |boxcmd| ==> ps[|before| + i] == CFlag(boxcmd[i])) &&
      ps[|before| + |boxcmd|..] == ConfFileFlags(boxcmd, opt, platform, cwd)
  {
    var before := ConfPathFlags(opt, confExists) + ExtraParams(opt);
    var ps := Params(boxcmd, opt, confExists, platform, cwd);
    assert ps == before + InlineFlags(boxcmd) + ConfFileFlags(boxcmd, opt, platform, cwd);
  }

  /** Without commands there are no flags, and a file is written only for a given configuration. */
  lemma NoCommandsNoRouting(opt: DOSBoxOption, confExists: bool, platform: Platform,
                            cwd: Option<string>)
    ensures Params([], opt, confExists, platform, cwd) ==
              ConfPathFlags(opt, confExists) + ExtraParams(opt) + ConfFileFlags([], opt, platform, cwd)
    ensures WritesConf([], opt, cwd) <==> ConfTruthy(opt.conf) && Truthy(cwd)
  {
  }

  /** Without a truthy `cwd` nothing is written, so routed commands vanish. */
  lemma RoutedCommandsDroppedWithoutCwd(boxcmd: seq<string>, opt: DOSBoxOption, confExists: bool,
                                        platform: Platform, cwd: Option<string>)
    requires |boxcmd| > MAX_DOSBOX_COMMAND && !Truthy(cwd)
    ensures !WritesConf(boxcmd, opt, cwd)
    ensures Params(boxcmd, opt, confExists, platform, cwd) == ConfPathFlags(opt, confExists) + ExtraParams(opt)
  {
  }

  /** An `autoexec` that is already present, even `[]`, is kept, so the commands are lost; with
      `[]` the written file gets no AUTOEXEC block at all. */
  lemma CommandsLostWhenAutoexecPresent(boxcmd: seq<string>, sections: seq<Section>,
                                        prior: Option<seq<string>>, eol: string)
    requires |boxcmd| > MAX_DOSBOX_COMMAND && prior.Some?
    ensures RoutedAutoexec(prior, boxcmd) == prior
    ensures prior.value == [] ==>
              Stringfy(Conf(sections, RoutedAutoexec(prior, boxcmd)), eol) ==
              Strip(IniStringify(Conf(sections, prior)))
  {
  }

  /** Over the threshold without a configuration, the file written holds only the block
      `eol [AUTOEXEC] eol` followed by the commands joined by `eol`, and they read back in order. */
  lemma RoutedCommandsWrittenInOrder(boxcmd: seq<string>, eol: string)
    requires |boxcmd| > MAX_DOSBOX_COMMAND && (eol == "\n" || eol == "\r\n")
    requires forall i :: 0 <= i < |boxcmd| ==> NoLineTerminator(boxcmd[i])
    ensures Stringfy(Conf([], Some(boxcmd)), eol) == eol + AutoexecHeader + eol + Join(boxcmd, eol)
    ensures ReadAutoexecBlock(Stringfy(Conf([], Some(boxcmd)), eol), 0, eol) == Some(boxcmd)
  {
    var c := Conf([], Some(boxcmd));
    StandInStripsAutoexec(c);
    assert Strip(IniStringify(c)) == "";
    forall i | 0 <= i < |boxcmd| ensures '\n' !in boxcmd[i] {
      forall k | 0 <= k < |boxcmd[i]| ensures boxcmd[i][k] != '\n' {
        assert !IsLineTerminator(boxcmd[i][k]);
      }
    }
    AutoexecRoundTrip(IniStringify(c), boxcmd, eol);
    assert "" + eol == eol;
  }

  // ---------------------------------------------------------------------------------------
  // Console recovery and result assembly

  /** The working directory as far as recovery sees it: unreadable, or a listing plus the
      contents of the entries that can be read as files. */
  datatype Folder = Unlistable | Listing(names: seq<string>, files: map<string, string>)

  datatype ReadError = ListFailed | ReadFailed(name: string)

  function ReadIfListed(names: seq<string>, files: map<string, string>, name: string): Result<Option<string>, ReadError> {
    if name in names then
      if name in files then Ok(Some(files[name])) else Err(ReadFailed(name))
    else Ok(None)
  }

  /** `winReadConsole(folder)`: the contents of `stdout.txt` and `stderr.txt`, each only if the
      listing holds its name; a listed entry that cannot be read, or a folder that
      cannot be listed, throws. */
  function WinReadConsole(folder: Folder): (r: Result<seq<Option<string>>, ReadError>)
    ensures folder.Unlistable? ==> r == Err(ListFailed)
    ensures folder.Listing? && r.Ok? ==>
              |r.value| == 2 &&
              (r.value[0].Some? <==> STDOUT_FILE in folder.names) &&
              (r.value[1].Some? <==> STDERR_FILE in folder.names) &&
              (r.value[0].Some? ==> STDOUT_FILE in folder.files && r.value[0].value == folder.files[STDOUT_FILE]) &&
              (r.value[1].Some? ==> STDERR_FILE in folder.files && r.value[1].value == folder.files[STDERR_FILE])
    ensures folder.Listing? ==>
              (r.Err? <==> exists n :: n in [STDOUT_FILE, STDERR_FILE] && n in folder.names && n !in folder.files)
  {
    match folder
    case Unlistable => Err(ListFailed)
    case Listing(names, files) =>
      match ReadIfListed(names, files, STDOUT_FILE)
      case Err(e) => Err(e)
      case Ok(out) =>
        match ReadIfListed(names, files, STDERR_FILE)
        case Err(e) => Err(e)
        case Ok(err) => Ok([out, err])
  }

  /** The exit code seen by the callback: the `exit` event may not have fired (`Undefined`),
      or the process ended on a signal (`Null`). */
  datatype ExitCode = Undefined | Null | Code(n: int)

  /** What `cp.exec` delivers to its completion callback. */
  datatype ExecResult = ExecResult(failed: bool, stdout: string, stderr: string, exitcode: ExitCode)

  /** `DOSBoxStd`. */
  datatype DOSBoxStd = DOSBoxStd(stdout: string, stderr: string, exitcode: ExitCode)

  datatype Stream = Stdout | Stderr

  /** One call of `stdoutHander` / `stderrHander`: (message, text, call number). */
  datatype Notice = Notice(stream: Stream, message: string, text: string, no: nat)

  /** The promise resolves, rejects with the note and the output attached, or the callback
      throws while recovering the console files and the promise never settles. */
  datatype Status = Resolved(std: DOSBoxStd) | Rejected(note: string, output: DOSBoxStd) | Threw(error: ReadError)

  datatype RunOutcome = RunOutcome(notices: seq<Notice>, status: Status)

  function Settle(failed: bool, output: DOSBoxStd): Status {
    if failed then Rejected(FAILURE_NOTE, output) else Resolved(output)
  }

  /** The text a recovered entry adds; an absent or empty file adds nothing. */
  function Recovered(o: Option<string>): string {
    if o.Some? then o.value else ""
  }

  function RecoveryNotice(stream: Stream, o: Option<string>, no: nat): seq<Notice> {
    if Truthy(o) then [Notice(stream, o.value, o.value, no)] else []
  }

  /** The completion callback of `runViaChildProcess`. Its `stdout`/`stderr` parameters shadow
      the streaming accumulators, so the result starts from exec's buffered text; under
      recovery the files' non-empty contents are appended and reported to the handlers. */
  function Completion(recover: bool, exec: ExecResult, folder: Folder, no: nat): (r: RunOutcome)
    ensures !recover ==>
              r == RunOutcome([], Settle(exec.failed, DOSBoxStd(exec.stdout, exec.stderr, exec.exitcode)))
    ensures recover && WinReadConsole(folder).Err? ==>
              r == RunOutcome([], Threw(WinReadConsole(folder).error))
    ensures recover && WinReadConsole(folder).Ok? ==>
              var info := WinReadConsole(folder).value;
              r.status == Settle(exec.failed, DOSBoxStd(exec.stdout + Recovered(info[0]),
                                                        exec.stderr + Recovered(info[1]), exec.exitcode)) &&
              r.notices == RecoveryNotice(Stdout, info[0], no) + RecoveryNotice(Stderr, info[1], no)
  {
    if !recover then RunOutcome([], Settle(exec.failed, DOSBoxStd(exec.stdout, exec.stderr, exec.exitcode)))
    else match WinReadConsole(folder)
      case Err(e) => RunOutcome([], Threw(e))
      case Ok(info) =>
        var hasOut := |info| >= 2 && Truthy(info[0]);
        var hasErr := |info| >= 2 && Truthy(info[1]);
        var out := if hasOut then exec.stdout + info[0].value else exec.stdout;
        var err := if hasErr then exec.stderr + info[1].value else exec.stderr;
        var notices := (if hasOut then [Notice(Stdout, info[0].value, info[0].value, no)] else []) +
                       (if hasErr then [Notice(Stderr, info[1].value, info[1].value, no)] else []);
        RunOutcome(notices, Settle(exec.failed, DOSBoxStd(out, err, exec.exitcode)))
  }

  /** The record a settled outcome carries. */
  function Output(s: Status): DOSBoxStd
    requires !s.Threw?
  {
    if s.Resolved? then s.std else s.output
  }

  /** Exec's buffered text always leads the result, and is all of it without recovery. */
  lemma BufferedTextLeads(recover: bool, exec: ExecResult, folder: Folder, no: nat)
    requires !Completion(recover, exec, folder, no).status.Threw?
    ensures var out := Output(Completion(recover, exec, folder, no).status);
      exec.stdout <= out.stdout && exec.stderr <= out.stderr && out.exitcode == exec.exitcode &&
      (!recover ==> out.stdout == exec.stdout && out.stderr == exec.stderr)
  {
  }

  /** An exec error changes only how the same record is delivered. */
  lemma ErrorRejectsWithSameRecord(recover: bool, exec: ExecResult, folder: Folder, no: nat, rec: DOSBoxStd)
    ensures Completion(recover, exec.(failed := false), folder, no).status == Resolved(rec) <==>
            Completion(recover, exec.(failed := true), folder, no).status == Rejected(FAILURE_NOTE, rec)
  {
  }

  // ---------------------------------------------------------------------------------------
  // The DOSBox object

  /** The `param` array and the `conf` value after routing. */
  datatype Routed = Routed(param: seq<string>, conf: ConfOption)

  /** Why `runCommand` throws before anything runs: assigning `autoexec` to a path string, or
      `fs.writeFileSync` failing at the destination. */
  datatype LaunchError = TypeError(message: string) | WriteFailed(path: string)

  datatype Launch = Launch(params: seq<string>, write: Option<ConfigWrite>, command: string, outcome: RunOutcome)

  class DOSBox {
    /** `_core`: the command template. */
    const core: string
    /** `process.platform`, fixed for the process. */
    const platform: Platform
    var cwd: Option<string>
    var console: WinConsole
    /** `_count`: the number of runs so far. */
    var count: nat

    constructor (core: string, platform: Platform, processCwd: string)
      ensures this.core == core && this.platform == platform
      ensures cwd == Some(processCwd) && console == NoConsole && count == 0
    {
      this.core := core;
      this.platform := platform;
      cwd := Some(processCwd);
      console := NoConsole;
      count := 0;
    }

    /** `DOSBox.Fromdir(cwd, opt)`. */
    static method Fromdir(cwd: Option<string>, winConsole: Option<WinConsole>, platform: Platform,
                          processCwd: string) returns (box: DOSBox)
      ensures fresh(box)
      ensures box.core == OpenDosboxCmd(platform, winConsole == Some(Min)) && box.platform == platform
      ensures box.console == FromdirConsole(winConsole) && box.cwd == cwd && box.count == 0
    {
      var core := OpenDosboxCmd(platform, winConsole == Some(Min));
      box := new DOSBox(core, platform, processCwd);
      if winConsole.Some? {
        box.console := winConsole.value;
      }
      box.cwd := cwd;
    }

    /** The `redirect` getter: output goes to files only on Windows with no console. */
    function Redirect(): (r: bool)
      reads this`console
      ensures r <==> platform == Win32 && console == NoConsole
    {
      RedirectFor(platform, console)
    }

    /** `runViaChildProcess(command)`: counts the run, then the completion callback settles it. */
    method RunViaChildProcess(command: string, exec: ExecResult, folder: Folder) returns (outcome: RunOutcome)
      modifies this`count
      ensures count == old(count) + 1
      ensures outcome == Completion(Redirect() && Truthy(cwd), exec, folder, count)
    {
      count := count + 1;
      outcome := Completion(Redirect() && Truthy(cwd), exec, folder, count);
    }

    /** The command `run` builds: the template's first `${args}` replaced when it holds one,
        else the template followed by the arguments. */
    static method ReplaceOrAppend(core: string, param: string) returns (command: string)
      ensures command == CommandFor(core, param)
    {
      if Contains(core, ARGS_PLACEHOLDER) {
        var i := IndexOf(core, ARGS_PLACEHOLDER).value;
        var before, after := core[..i], core[i + |ARGS_PLACEHOLDER|..];
        command := before + GetSubstitution(param, ARGS_PLACEHOLDER, before, after) + after;
      } else {
        command := core + param;
      }
    }

    /** `run(parameters)`. */
    method Run(parameters: Option<string>, exec: ExecResult, folder: Folder) returns (command: string, outcome: RunOutcome)
      modifies this`count
      ensures command == CommandFor(core, ArgString(Redirect(), parameters))
      ensures count == old(count) + 1
      ensures outcome == Completion(Redirect() && Truthy(cwd), exec, folder, count)
    {
      var param := if Redirect() then " -noconsole " else " ";
      if Truthy(parameters) {
        param := param + parameters.value;
      } else {
        assert param + "" == param;
      }
      assert param == ArgString(Redirect(), parameters);
      command := ReplaceOrAppend(core, param);
      outcome := RunViaChildProcess(command, exec, folder);
    }

    /** `version()`. */
    method Version(exec: ExecResult, folder: Folder) returns (command: string, outcome: RunOutcome)
      modifies this`count
      ensures command == CommandFor(core, ArgString(Redirect(), Some("-version")))
      ensures count == old(count) + 1
      ensures outcome == Completion(Redirect() && Truthy(cwd), exec, folder, count)
    {
      command, outcome := Run(Some("-version"), exec, folder);
    }

    /** The first half of `runCommand`: the path flag, the caller's parameters, and then either
        the inline flags or the autoexec routing, which may change the caller's object. */
    static method RouteCommands(boxcmd: seq<string>, opt: DOSBoxOption, confExists: bool)
      returns (r: Result<Routed, string>)
      modifies ConfObjects(opt.conf)
      ensures r.Err? <==> ThrowsOnStringConf(boxcmd, opt)
      ensures r.Err? ==> r.error == TypeErrorMessage(opt.conf.path)
      ensures opt.conf.ConfObj? ==>
                opt.conf.obj.autoexec == RoutedAutoexec(old(opt.conf.obj.autoexec), boxcmd) &&
                opt.conf.obj.sections == old(opt.conf.obj.sections)
      ensures r.Ok? ==> r.value.param == ConfPathFlags(opt, confExists) + ExtraParams(opt) + CommandFlags(boxcmd)
      ensures r.Ok? ==> (ConfTruthy(r.value.conf) <==> ConfTruthy(opt.conf) || |boxcmd| > MAX_DOSBOX_COMMAND)
      ensures r.Ok? && r.value.conf.ConfPath? ==> r.value.conf == opt.conf
      ensures r.Ok? && opt.conf.ConfObj? ==> r.value.conf == opt.conf
      ensures r.Ok? && r.value.conf.ConfObj? && !opt.conf.ConfObj? ==>
                !ConfTruthy(opt.conf) && fresh(r.value.conf.obj) &&
                r.value.conf.obj.Value() == Conf([], Some(boxcmd))
    {
      var param: seq<string> := [];
      if opt.conf.ConfPath? && opt.conf.path != "" {
        if confExists {
          param := param + [ConfFlag(opt.conf.path)];
        }
      }
      if opt.param.Some? && |opt.param.value| > 0 {
        param := param + opt.param.value;
      }
      assert param == ConfPathFlags(opt, confExists) + ExtraParams(opt);
      var conf: ConfOption := NoConf;
      if ConfTruthy(opt.conf) {
        conf := opt.conf;
      }
      if |boxcmd| > MAX_DOSBOX_COMMAND {
        if conf.ConfObj? {
          // an existing array only has `concat` called on it, and the result is dropped
          if conf.obj.autoexec.None? {
            conf.obj.autoexec := Some(boxcmd);
          }
        } else if conf.ConfPath? {
          return Err(TypeErrorMessage(conf.path));
        } else {
          var literal := new ConfObject.Literal([], Some(boxcmd));
          conf := ConfObj(literal);
        }
      } else if |boxcmd| > 0 {
        param := param + InlineFlags(boxcmd);
      }
      r := Ok(Routed(param, conf));
    }

    /** `runCommand(boxcmd, opt)`, with `fs.existsSync(opt.conf)` as `confExists`, whether
        `fs.writeFileSync` throws at the destination as `writeFails`, and `os.EOL` as `eol`. It
        throws, before anything runs, when a path string meets too many commands or the
        configuration file cannot be written; the caller's object is changed either way. */
    method RunCommand(boxcmd: seq<string>, opt: DOSBoxOption, confExists: bool, writeFails: bool,
                      eol: string, exec: ExecResult, folder: Folder) returns (r: Result<Launch, LaunchError>)
      modifies this`count, ConfObjects(opt.conf)
      ensures r.Err? <==> ThrowsOnStringConf(boxcmd, opt) || (WritesConf(boxcmd, opt, cwd) && writeFails)
      ensures ThrowsOnStringConf(boxcmd, opt) ==> r == Err(TypeError(TypeErrorMessage(opt.conf.path)))
      ensures !ThrowsOnStringConf(boxcmd, opt) && WritesConf(boxcmd, opt, cwd) && writeFails ==>
                r == Err(WriteFailed(ConfFilePath(platform, cwd.value)))
      ensures r.Err? ==> count == old(count)
      ensures opt.conf.ConfObj? ==>
                opt.conf.obj.autoexec == RoutedAutoexec(old(opt.conf.obj.autoexec), boxcmd) &&
                opt.conf.obj.sections == old(opt.conf.obj.sections)
      ensures r.Ok? ==>
                r.value.params == Params(boxcmd, opt, confExists, platform, cwd) &&
                r.value.write == (if WritesConf(boxcmd, opt, cwd)
                                  then Some(ConfigWrite(ConfFilePath(platform, cwd.value), WrittenData(opt.conf, boxcmd, eol)))
                                  else None) &&
                r.value.command == CommandFor(core, ArgString(Redirect(), Some(Join(r.value.params, " ")))) &&
                count == old(count) + 1 &&
                r.value.outcome == Completion(Redirect() && Truthy(cwd), exec, folder, count)
    {
      var routed := RouteCommands(boxcmd, opt, confExists);
      if routed.Err? {
        return Err(TypeError(routed.error));
      }
      var param, conf := routed.value.param, routed.value.conf;
      var write: Option<ConfigWrite> := None;
      if ConfTruthy(conf) && Truthy(cwd) {
        var dst := ConfFilePath(platform, cwd.value);
        param := param + [ConfFlag(dst)];
        var data := if conf.ConfObj? then Serialised(Stringfy(conf.obj.Value(), eol)) else StringifiedPath(conf.path);
        assert data == WrittenData(opt.conf, boxcmd, eol);
        if writeFails {
          return Err(WriteFailed(dst));
        }
        write := Some(ConfigWrite(dst, data));
      }
      assert param == Params(boxcmd, opt, confExists, platform, cwd);
      var command, outcome := Run(Some(Join(param, " ")), exec, folder);
      r := Ok(Launch(param, write, command, outcome));
    }
  }

  /** A Windows box from `Fromdir` running one command, where DOSBox exits with code 0 and leaves
      `hi\n` in `stdout.txt`: the command is inline and the recovered text is the result. */
  method EchoHiScenario() returns (r: Result<Launch, LaunchError>)
    ensures r.Ok?
    ensures r.value.command == "dosbox -noconsole -c \"echo hi\""
    ensures r.value.outcome.status == Resolved(DOSBoxStd("hi\n", "", Code(0)))
  {
    var cwd := Some("C:\\DOSBox");
    var opt := DOSBoxOption(NoConf, None);
    var exec := ExecResult(false, "", "", Code(0));
    var folder := Listing([STDOUT_FILE], map[STDOUT_FILE := "hi\n"]);
    var box := DOSBox.Fromdir(cwd, None, Win32, "C:\\work");
    EchoHiParams(opt, cwd);
    EchoHiCommand();
    EchoHiOutcome(exec, folder, 1);
    r := box.RunCommand(["echo hi"], opt, false, false, "\r\n", exec, folder);
  }

  lemma EchoHiParams(opt: DOSBoxOption, cwd: Option<string>)
    requires opt == DOSBoxOption(NoConf, None)
    ensures Params(["echo hi"], opt, false, Win32, cwd) == [CFlag("echo hi")]
  {
    assert InlineFlags(["echo hi"]) == [CFlag("echo hi")];
  }

  lemma EchoHiCommand()
    ensures CommandFor("dosbox", ArgString(true, Some(Join([CFlag("echo hi")], " ")))) ==
              "dosbox -noconsole -c \"echo hi\""
  {
    FromdirTemplate(Win32, None);
    assert Join([CFlag("echo hi")], " ") == CFlag("echo hi");
  }

  lemma EchoHiOutcome(exec: ExecResult, folder: Folder, no: nat)
    requires exec == ExecResult(false, "", "", Code(0))
    requires folder == Listing([STDOUT_FILE], map[STDOUT_FILE := "hi\n"])
    ensures Completion(true, exec, folder, no).status == Resolved(DOSBoxStd("hi\n", "", Code(0)))
  {
    assert STDERR_FILE !in folder.names;
    assert WinReadConsole(folder) == Ok([Some("hi\n"), None]);
  }

  /** A failing exec rejects with the note; the record starts with the buffered text exec
      delivered, and is exactly that text without recovery. */
  lemma FailureKeepsPartialOutput(recover: bool, exec: ExecResult, folder: Folder, no: nat)
    requires exec.failed && !Completion(recover, exec, folder, no).status.Threw?
    ensures var s := Completion(recover, exec, folder, no).status;
      s.Rejected? && s.note == "try to open DOSBox failed" &&
      exec.stdout <= s.output.stdout && exec.stderr <= s.output.stderr &&
      s.output.exitcode == exec.exitcode &&
      (!recover ==> s.output == DOSBoxStd(exec.stdout, exec.stderr, exec.exitcode))
  {
  }

  /** Under recovery a failed run still carries the recovered text after exec's own. */
  lemma FailureKeepsRecoveredText()
    ensures Completion(true, ExecResult(true, "a", "", Null), Listing([STDOUT_FILE], map[STDOUT_FILE := "b"]), 1).status ==
              Rejected(FAILURE_NOTE, DOSBoxStd("ab", "", Null))
  {
    var folder := Listing([STDOUT_FILE], map[STDOUT_FILE := "b"]);
    assert STDERR_FILE !in folder.names;
    assert WinReadConsole(folder) == Ok([Some("b"), None]);
  }
}
