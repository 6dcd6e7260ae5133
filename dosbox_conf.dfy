/** The configuration object of src/dosbox_conf.ts and its serialiser `stringfy`.

    A configuration is a list of INI sections plus an optional `autoexec` command list.
    `Stringfy` runs the INI library's `stringify`, deletes every `autoexec[]=...` line the
    library produced for the array, and appends an `[AUTOEXEC]` block when there are commands. */
module DosboxConf {
  import opened Wrappers
  import opened Text

  /** A key's value: the source allows only strings and booleans. */
  datatype IniValue = Str(s: string) | Bool(b: bool)

  datatype Entry = Entry(key: string, value: IniValue)

  /** One section (`sdl`, `cpu`, ...), its keys in declaration order. */
  datatype Section = Section(name: string, entries: seq<Entry>)

  /** The value of a configuration object: the sections it has, in property order, and its
      `autoexec` property (`None` when the property is absent). */
  datatype Conf = Conf(sections: seq<Section>, autoexec: Option<seq<string>>)

  /** A configuration object as JavaScript holds it: a mutable record that a caller passes
      by reference and `DOSBox.runCommand` may change. */
  class ConfObject {
    var sections: seq<Section>
    var autoexec: Option<seq<string>>

    /** `new dosboxConf()`: every section with its documented defaults and `autoexec = []`. */
    constructor ()
      ensures Value() == DefaultConf()
    {
      sections := DefaultSections();
      autoexec := Some([]);
    }

    /** An object literal a caller writes, holding only the sections it names. */
    constructor Literal(sections: seq<Section>, autoexec: Option<seq<string>>)
      ensures Value() == Conf(sections, autoexec)
    {
      this.sections := sections;
      this.autoexec := autoexec;
    }

    function Value(): Conf
      reads this
    {
      Conf(sections, autoexec)
    }

    /** `toString()`: the object run through `stringfy`. */
    function ToString(eol: string): (r: string)
      reads this
      ensures Strip(IniStringify(Value())) <= r
      ensures r == Strip(IniStringify(Value())) <==> autoexec.None? || autoexec.value == []
    {
      Stringfy(Value(), eol)
    }
  }

  // ---------------------------------------------------------------------------------------
  // Strip: `str.replace(/autoexec\[\]=(.*)\n/g, "")`

  const AutoexecKey := "autoexec[]="

  /** The characters JavaScript's `.` does not match. */
  predicate IsLineTerminator(c: char) {
    c == '\n' || c == '\r' || c == '\U{2028}' || c == '\U{2029}'
  }

  /** `s` starts with a match of the pattern that is `n` characters long: the key, a run of
      characters none of which is a line terminator, then a line feed. */
  predicate IsMatch(s: string, n: nat) {
    |AutoexecKey| < n <= |s| && StartsWith(s, AutoexecKey) && s[n - 1] == '\n' &&
    forall k :: |AutoexecKey| <= k < n - 1 ==> !IsLineTerminator(s[k])
  }

  /** The first line terminator at or after `i`, or the end of `s`. */
  function LineEnd(s: string, i: nat): (e: nat)
    requires i <= |s|
    ensures i <= e <= |s|
    ensures forall k :: i <= k < e ==> !IsLineTerminator(s[k])
    ensures e < |s| ==> IsLineTerminator(s[e])
    decreases |s| - i
  {
    if i == |s| || IsLineTerminator(s[i]) then i else LineEnd(s, i + 1)
  }

  /** Attempts the pattern at the start of `s`, as the greedy `(.*)` does: the run stops at the
      first line terminator, and the match succeeds only if that terminator is a line feed. */
  function MatchAt(s: string): (m: Option<nat>)
    ensures m.Some? ==> IsMatch(s, m.value)
    ensures m.None? ==> forall n :: !IsMatch(s, n)
  {
    if StartsWith(s, AutoexecKey) then
      var e := LineEnd(s, |AutoexecKey|);
      if e < |s| && s[e] == '\n' then Some(e + 1) else None
    else None
  }

  /** A position admits at most one match, so the greedy choice is the only one. */
  lemma MatchUnique(s: string, n1: nat, n2: nat)
    requires IsMatch(s, n1) && IsMatch(s, n2)
    ensures n1 == n2
  {
    if n1 < n2 {
      assert IsLineTerminator(s[n1 - 1]);
    } else if n2 < n1 {
      assert IsLineTerminator(s[n2 - 1]);
    }
  }

  /** The global replace: scan left to right, delete each match and resume after it,
      otherwise keep one character and move on. */
  function Strip(s: string): (r: string)
    ensures |r| <= |s|
    decreases |s|
  {
    if s == [] then []
    else match MatchAt(s)
      case Some(n) => Strip(s[n..])
      case None => [s[0]] + Strip(s[1..])
  }

  /** Text with no occurrence of the key passes through unchanged. */
  lemma {:induction false} StripWithoutKey(s: string)
    requires forall j :: 0 <= j <= |s| ==> !StartsWith(s[j..], AutoexecKey)
    ensures Strip(s) == s
  {
    if s != [] {
      assert s[0..] == s;
      forall j | 0 <= j <= |s[1..]|
        ensures !StartsWith(s[1..][j..], AutoexecKey)
      {
        assert s[1..][j..] == s[j + 1..];
      }
      StripWithoutKey(s[1..]);
      assert [s[0]] + s[1..] == s;
    }
  }

  /** Every match ends in a line feed, so text without one passes through unchanged. */
  lemma {:induction false} StripWithoutLineFeed(s: string)
    requires '\n' !in s
    ensures Strip(s) == s
  {
    if s != [] {
      forall n | |AutoexecKey| < n <= |s|
        ensures !IsMatch(s, n)
      {
        assert s[n - 1] in s;
      }
      assert '\n' !in s[1..] by {
        forall k | 0 <= k < |s[1..]| ensures s[1..][k] != '\n' {
          assert s[1..][k] == s[k + 1];
          assert s[k + 1] in s;
        }
      }
      StripWithoutLineFeed(s[1..]);
      assert [s[0]] + s[1..] == s;
    }
  }

  predicate NoLineTerminator(c: string) {
    forall k :: 0 <= k < |c| ==> !IsLineTerminator(c[k])
  }

  /** A line `autoexec[]=<c>` ending in a line feed is deleted whole. */
  lemma StripDeletesLine(c: string, rest: string)
    requires NoLineTerminator(c)
    ensures Strip(AutoexecKey + c + "\n" + rest) == Strip(rest)
  {
    var s := AutoexecKey + c + "\n" + rest;
    var n := |AutoexecKey| + |c| + 1;
    assert s[..|AutoexecKey|] == AutoexecKey;
    forall k | |AutoexecKey| <= k < n - 1
      ensures !IsLineTerminator(s[k])
    {
      assert s[k] == c[k - |AutoexecKey|];
    }
    assert IsMatch(s, n);
    MatchUnique(s, MatchAt(s).value, n);
    assert s[n..] == rest;
  }

  /** No match can start at the front of a prefix without a line feed that ends in a carriage
      return: the carriage return stops the run before any line feed. */
  lemma NoMatchBeforeCr(a: string, rest: string)
    requires '\n' !in a && |a| > 0 && a[|a| - 1] == '\r'
    ensures MatchAt(a + rest) == None
  {
    var s := a + rest;
    if StartsWith(s, AutoexecKey) {
      assert s[..|AutoexecKey|] == AutoexecKey;
      assert |AutoexecKey| <= |a| - 1 by {
        assert forall k :: 0 <= k < |AutoexecKey| ==> s[k] == AutoexecKey[k] != '\r';
      }
      var e := LineEnd(s, |AutoexecKey|);
      assert s[|a| - 1] == '\r';
      assert e <= |a| - 1;
      assert s[e] == a[e];
      assert a[e] in a;
    }
  }

  /** Such a prefix is kept whole by the strip step. */
  lemma {:induction false} StripKeepsCrTerminated(a: string, rest: string)
    requires '\n' !in a && |a| > 0 && a[|a| - 1] == '\r'
    ensures Strip(a + rest) == a + Strip(rest)
  {
    var s := a + rest;
    NoMatchBeforeCr(a, rest);
    assert Strip(s) == [a[0]] + Strip(s[1..]);
    assert s[1..] == a[1..] + rest;
    if |a| > 1 {
      assert '\n' !in a[1..] by {
        forall k | 0 <= k < |a[1..]| ensures a[1..][k] != '\n' {
          assert a[1..][k] == a[k + 1];
          assert a[k + 1] in a;
        }
      }
      StripKeepsCrTerminated(a[1..], rest);
      assert [a[0]] + a[1..] == a;
    }
  }

  /** So a line `autoexec[]=<c>` ending in CR LF survives the strip step. */
  lemma StripKeepsCrLfLine(c: string, rest: string)
    requires '\n' !in c
    ensures Strip(AutoexecKey + c + "\r\n" + rest) == AutoexecKey + c + "\r" + Strip("\n" + rest)
  {
    var a := AutoexecKey + c + "\r";
    assert '\n' !in a by {
      forall k | 0 <= k < |a| ensures a[k] != '\n' {
        if |AutoexecKey| <= k < |a| - 1 {
          assert a[k] == c[k - |AutoexecKey|];
          assert c[k - |AutoexecKey|] in c;
        }
      }
    }
    assert AutoexecKey + c + "\r\n" + rest == a + ("\n" + rest);
    StripKeepsCrTerminated(a, "\n" + rest);
  }

  /** A match at the front of `a + b` lies within `a` when `a` ends at a line terminator: the
      run of the match cannot cross it. */
  lemma MatchWithin(a: string, b: string)
    requires a != [] && IsLineTerminator(a[|a| - 1])
    ensures MatchAt(a + b) == MatchAt(a)
  {
    var s := a + b;
    assert forall k :: 0 <= k < |AutoexecKey| ==> !IsLineTerminator(AutoexecKey[k]);
    forall n: nat | IsMatch(s, n)
      ensures IsMatch(a, n)
    {
      assert s[..|AutoexecKey|] == AutoexecKey;
      assert IsLineTerminator(s[|a| - 1]);
      assert n <= |a|;
      assert a[..|AutoexecKey|] == s[..|AutoexecKey|];
      forall k | |AutoexecKey| <= k < n - 1
        ensures !IsLineTerminator(a[k])
      {
        assert a[k] == s[k];
      }
      assert a[n - 1] == s[n - 1];
    }
    forall n: nat | IsMatch(a, n)
      ensures IsMatch(s, n)
    {
      assert s[..|AutoexecKey|] == a[..|AutoexecKey|];
    }
    if MatchAt(s).Some? {
      MatchUnique(a, MatchAt(s).value, MatchAt(a).value);
    }
  }

  /** Text that ends at a line terminator strips independently of what follows it. */
  lemma {:induction false} StripSplitsAfterTerminator(a: string, b: string)
    requires a == [] || IsLineTerminator(a[|a| - 1])
    ensures Strip(a + b) == Strip(a) + Strip(b)
    decreases |a|
  {
    if a == [] {
      assert a + b == b;
    } else {
      var s := a + b;
      MatchWithin(a, b);
      match MatchAt(a)
      case Some(n) =>
        assert s[n..] == a[n..] + b;
        assert a[n..] == [] || a[n..][|a[n..]| - 1] == a[|a| - 1];
        StripSplitsAfterTerminator(a[n..], b);
      case None =>
        assert s[1..] == a[1..] + b;
        assert a[1..] == [] || a[1..][|a[1..]| - 1] == a[|a| - 1];
        StripSplitsAfterTerminator(a[1..], b);
    }
  }

  /** The first `m` characters are kept whole when the key begins at none of their positions. */
  lemma {:induction false} StripKeepsKeyFreePrefix(s: string, m: nat)
    requires m <= |s|
    requires forall j :: 0 <= j < m ==> !StartsWith(s[j..], AutoexecKey)
    ensures Strip(s) == s[..m] + Strip(s[m..])
    decreases m
  {
    if m == 0 {
      assert s[..0] + Strip(s[0..]) == Strip(s);
    } else {
      assert Strip(s) == [s[0]] + Strip(s[1..]) by {
        assert s[0..] == s;
        assert MatchAt(s) == None;
      }
      var t := s[1..];
      forall j | 0 <= j < m - 1
        ensures !StartsWith(t[j..], AutoexecKey)
      {
        assert t[j..] == s[j + 1..];
      }
      StripKeepsKeyFreePrefix(t, m - 1);
      assert s[..m] == [s[0]] + t[..m - 1] && s[m..] == t[m - 1..];
    }
  }

  /** The strip is not anchored: an `autoexec[]=<c>` line ending in a line feed is deleted
      wherever it starts, and the text before it is kept. */
  lemma StripDeletesAfterPrefix(p: string, c: string, rest: string)
    requires NoLineTerminator(c)
    requires forall j :: 0 <= j < |p| ==> !StartsWith((p + AutoexecKey + c + "\n" + rest)[j..], AutoexecKey)
    ensures Strip(p + AutoexecKey + c + "\n" + rest) == p + Strip(rest)
  {
    var s := p + AutoexecKey + c + "\n" + rest;
    var tail := AutoexecKey + c + "\n" + rest;
    assert s[..|p|] == p && s[|p|..] == tail;
    StripKeepsKeyFreePrefix(s, |p|);
    StripDeletesLine(c, rest);
  }

  /** A key in the middle of a line is deleted up to and including the line feed. */
  lemma StripMidLine()
    ensures Strip("x " + AutoexecKey + "a\n" + "y") == "x y"
  {
    var s := "x " + AutoexecKey + "a\n" + "y";
    assert s == "x " + AutoexecKey + "a" + "\n" + "y";
    forall j | 0 <= j < 2
      ensures !StartsWith(s[j..], AutoexecKey)
    {
      assert s[j] != 'a';
    }
    StripDeletesAfterPrefix("x ", "a", "y");
    StripWithoutKey("y");
  }

  // ---------------------------------------------------------------------------------------
  // Stand-in for the INI library's `stringify`

  /** The stand-in ends every line with a line feed. */
  const IniNewline := "\n"

  /** Booleans render as bare `true` / `false`, strings as themselves. */
  function RenderValue(v: IniValue): string {
    match v
    case Str(s) => s
    case Bool(b) => if b then "true" else "false"
  }

  function EntryLines(es: seq<Entry>): string {
    if es == [] then ""
    else es[0].key + "=" + RenderValue(es[0].value) + IniNewline + EntryLines(es[1..])
  }

  function SectionText(sec: Section): string {
    "[" + sec.name + "]" + IniNewline + EntryLines(sec.entries)
  }

  /** Sections in order, separated by an empty line. */
  function SectionsText(secs: seq<Section>): string {
    if secs == [] then ""
    else SectionText(secs[0]) + (if |secs| > 1 then IniNewline else "") + SectionsText(secs[1..])
  }

  /** An array property becomes one `key[]=item` line per item. */
  function ArrayLines(key: string, items: seq<string>): string {
    if items == [] then ""
    else key + "[]=" + items[0] + IniNewline + ArrayLines(key, items[1..])
  }

  /** Top-level array lines come first, then the sections. */
  function IniStringify(c: Conf): (r: string)
    ensures c.autoexec.None? || c.autoexec.value == [] ==> r == SectionsText(c.sections)
    ensures c.autoexec.Some? ==> ArrayLines("autoexec", c.autoexec.value) <= r
    ensures |SectionsText(c.sections)| <= |r| && r[|r| - |SectionsText(c.sections)|..] == SectionsText(c.sections)
  {
    var top := if c.autoexec.Some? then ArrayLines("autoexec", c.autoexec.value) else "";
    top + (if top != "" && c.sections != [] then IniNewline else "") + SectionsText(c.sections)
  }

  /** In the stand-in's output the strip step removes exactly the `autoexec[]=` lines. */
  lemma {:induction false} StripDeletesArrayLines(items: seq<string>, rest: string)
    requires forall i :: 0 <= i < |items| ==> NoLineTerminator(items[i])
    ensures Strip(ArrayLines("autoexec", items) + rest) == Strip(rest)
  {
    if items != [] {
      var tail := ArrayLines("autoexec", items[1..]) + rest;
      assert "autoexec" + "[]=" == AutoexecKey;
      assert ArrayLines("autoexec", items) ==
               AutoexecKey + items[0] + "\n" + ArrayLines("autoexec", items[1..]);
      assert ArrayLines("autoexec", items) + rest == AutoexecKey + items[0] + "\n" + tail;
      StripDeletesLine(items[0], tail);
      assert Strip(ArrayLines("autoexec", items) + rest) == Strip(tail);
      StripDeletesArrayLines(items[1..], rest);
      assert Strip(tail) == Strip(rest);
    } else {
      assert ArrayLines("autoexec", items) + rest == rest;
    }
  }

  lemma StandInStripsAutoexec(c: Conf)
    requires c.autoexec.Some? && c.autoexec.value != []
    requires forall i :: 0 <= i < |c.autoexec.value| ==> NoLineTerminator(c.autoexec.value[i])
    ensures Strip(IniStringify(c)) ==
              Strip((if c.sections != [] then IniNewline else "") + SectionsText(c.sections))
  {
    var items := c.autoexec.value;
    var rest := (if c.sections != [] then IniNewline else "") + SectionsText(c.sections);
    assert ArrayLines("autoexec", items) != "";
    assert IniStringify(c) == ArrayLines("autoexec", items) + rest;
    StripDeletesArrayLines(items, rest);
  }

  // ---------------------------------------------------------------------------------------
  // stringfy

  const AutoexecHeader := "[AUTOEXEC]"

  /** What `stringfy` does to the INI library's text: strip, then append the block. The
      stripped text always leads, and it is all of the result exactly when `autoexec` is absent
      or empty. */
  function PostProcess(ini: string, autoexec: Option<seq<string>>, eol: string): (r: string)
    ensures Strip(ini) <= r
    ensures r == Strip(ini) <==> autoexec.None? || autoexec.value == []
  {
    var str := Strip(ini);
    if autoexec.Some? && |autoexec.value| > 0 then
      str + eol + AutoexecHeader + eol + Join(autoexec.value, eol)
    else str
  }

  /** `dosboxConf.stringfy(conf)`, with `os.EOL` as the parameter `eol`. */
  function Stringfy(c: Conf, eol: string): (r: string)
    ensures Strip(IniStringify(c)) <= r
    ensures r == Strip(IniStringify(c)) <==> c.autoexec.None? || c.autoexec.value == []
  {
    PostProcess(IniStringify(c), c.autoexec, eol)
  }

  /** With commands, exactly one block is appended, with no line terminator after the last. */
  lemma AutoexecBlockExact(ini: string, cmds: seq<string>, eol: string)
    requires |cmds| > 0
    ensures PostProcess(ini, Some(cmds), eol) ==
              Strip(ini) + eol + "[AUTOEXEC]" + eol + Join(cmds, eol)
  {
  }

  /** Reads back the command list from the block that starts at offset `at`. */
  function ReadAutoexecBlock(text: string, at: nat, eol: string): Option<seq<string>>
    requires |eol| > 0
  {
    var header := eol + AutoexecHeader + eol;
    if at <= |text| && StartsWith(text[at..], header) then
      Some(Split(text[at + |header|..], eol))
    else None
  }

  /** Round trip: reading the block after the stripped text gives the commands back, in order,
      when no command contains a line feed. */
  lemma AutoexecRoundTrip(ini: string, cmds: seq<string>, eol: string)
    requires |cmds| > 0 && (eol == "\n" || eol == "\r\n")
    requires forall i :: 0 <= i < |cmds| ==> '\n' !in cmds[i]
    ensures ReadAutoexecBlock(PostProcess(ini, Some(cmds), eol), |Strip(ini)|, eol) == Some(cmds)
  {
    var header := eol + AutoexecHeader + eol;
    assert PostProcess(ini, Some(cmds), eol) == Strip(ini) + header + Join(cmds, eol);
    BlockAfter(Strip(ini), header, Join(cmds, eol));
    forall i | 0 <= i < |cmds|
      ensures SepFree(cmds[i], eol)
    {
      NoLineFeedSepFree(cmds[i], eol);
    }
    SplitJoin(cmds, eol);
  }

  lemma BlockAfter(str: string, header: string, body: string)
    ensures StartsWith((str + header + body)[|str|..], header)
    ensures (str + header + body)[|str| + |header|..] == body
  {
    var text := str + header + body;
    assert text[|str|..] == header + body;
    assert (header + body)[..|header|] == header;
  }

  // ---------------------------------------------------------------------------------------
  // Defaults of `new dosboxConf()`

  function DefaultSections(): seq<Section> {
    [ Section("sdl", [
        Entry("fullscreen", Bool(false)), Entry("fulldouble", Bool(false)),
        Entry("fullresolution", Str("original")), Entry("windowresolution", Str("original")),
        Entry("output", Str("surface")), Entry("autolock", Bool(true)),
        Entry("sensitivity", Str("100")), Entry("waitonerror", Bool(true)),
        Entry("priority", Str("higher,normal")), Entry("mapperfile", Str("mapper-0.74-3.map")),
        Entry("usescancodes", Bool(true))]),
      Section("dosbox", [
        Entry("language", Str("")), Entry("machine", Str("svga_s3")),
        Entry("captures", Str("capture")), Entry("memsize", Str("16"))]),
      Section("render", [
        Entry("frameskip", Str("0")), Entry("aspect", Bool(false)), Entry("scaler", Str("normal2x"))]),
      Section("cpu", [
        Entry("core", Str("auto")), Entry("cputype", Str("auto")), Entry("cycles", Str("auto")),
        Entry("cycleup", Str("10")), Entry("cycledown", Str("20"))]),
      Section("mixer", [
        Entry("nosound", Bool(false)), Entry("rate", Str("44100")),
        Entry("blocksize", Str("1024")), Entry("prebuffer", Str("25"))]),
      Section("midi", [
        Entry("mpu401", Str("intelligent")), Entry("mididevice", Str("default")),
        Entry("midiconfig", Str(""))]),
      Section("sblaster", [
        Entry("sbtype", Str("sb16")), Entry("sbbase", Str("220")), Entry("irq", Str("7")),
        Entry("dma", Str("1")), Entry("hdma", Str("5")), Entry("sbmixer", Bool(true)),
        Entry("oplmode", Str("auto")), Entry("oplemu", Str("default")), Entry("oplrate", Str("44100"))]),
      Section("gus", [
        Entry("gus", Bool(false)), Entry("gusrate", Str("44100")), Entry("gusbase", Str("240")),
        Entry("gusirq", Str("5")), Entry("gusdma", Str("3")), Entry("ultradir", Str("C:\\ULTRASND"))]),
      Section("speaker", [
        Entry("pcspeaker", Bool(true)), Entry("pcrate", Str("44100")), Entry("tandy", Str("auto")),
        Entry("tandyrate", Str("44100")), Entry("disney", Bool(true))]),
      Section("joystick", [
        Entry("joysticktype", Str("auto")), Entry("timed", Bool(true)), Entry("autofire", Bool(false)),
        Entry("swap34", Bool(false)), Entry("buttonwrap", Bool(false))]),
      Section("serial", [
        Entry("serial1", Str("dummy")), Entry("serial2", Str("dummy")),
        Entry("serial3", Str("disabled")), Entry("serial4", Str("disabled"))]),
      Section("dos", [
        Entry("xms", Bool(true)), Entry("ems", Bool(true)), Entry("umb", Bool(true)),
        Entry("keyboardlayout", Str("auto"))]),
      Section("ipx", [Entry("ipx", Bool(false))])
    ]
  }

  function DefaultConf(): Conf {
    Conf(DefaultSections(), Some([]))
  }

  function LookupEntry(es: seq<Entry>, key: string): Option<IniValue> {
    if es == [] then None
    else if es[0].key == key then Some(es[0].value)
    else LookupEntry(es[1..], key)
  }

  /** `conf[section][key]`. */
  function Lookup(c: Conf, section: string, key: string): Option<IniValue> {
    LookupIn(c.sections, section, key)
  }

  function LookupIn(secs: seq<Section>, section: string, key: string): Option<IniValue> {
    if secs == [] then None
    else if secs[0].name == section then LookupEntry(secs[0].entries, key)
    else LookupIn(secs[1..], section, key)
  }

  /** A default instance: thirteen sections, `cpu.cycles = 'auto'`, `sdl.fullscreen = false`,
      and `autoexec = []`, so its serialisation gets no AUTOEXEC block. */
  lemma DefaultInstance(eol: string)
    ensures |DefaultConf().sections| == 13
    ensures Lookup(DefaultConf(), "cpu", "cycles") == Some(Str("auto"))
    ensures Lookup(DefaultConf(), "sdl", "fullscreen") == Some(Bool(false))
    ensures DefaultConf().autoexec == Some([])
    ensures Stringfy(DefaultConf(), eol) == Strip(IniStringify(DefaultConf()))
  {
  }
}
