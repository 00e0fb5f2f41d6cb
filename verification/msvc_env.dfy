/** Finding the MSVC toolchain and reading its environment, the same in all
    three revisions: the Visual Studio locator names the auxiliary build
    directory, a batch file calls `vcvarsall.bat` there and dumps the
    resulting environment with `set`, and that dump is read back as
    `NAME=VALUE` lines into the map every MSVC tool then runs with. */
module MsvcEnv {
  import opened Wrappers
  import opened Errors
  import opened Paths
  import opened Process
  import Strings

  /** The variables the MSVC tools are started with. */
  type EnvMap = map<string, string>

  predicate NoEquals(s: string) {
    forall j :: 0 <= j < |s| ==> s[j] != '='
  }

  /** One line of the dump as the source reads it: the text before the
      first '=' names the variable, and the value is only the second
      '='-separated piece (so "A=b=c" gives "b"); a line without '='
      names a variable with the empty value. */
  function ParseLine(line: string): (r: (string, string))
    ensures NoEquals(r.0) && NoEquals(r.1)
    ensures r.0 <= line
    ensures NoEquals(line) ==> r == (line, "")
  {
    var halves := Strings.Split(line, '=');
    Strings.SplitJoin(line, '=');
    SplitPlain(line);
    assert NoEquals(halves[0]);
    FirstPieceIsPrefix(halves);
    if |halves| > 1 then
      assert NoEquals(halves[1]);
      (halves[0], halves[1])
    else (halves[0], "")
  }

  lemma SplitPlain(line: string)
    ensures NoEquals(line) ==> Strings.Split(line, '=') == [line]
  {
    if NoEquals(line) {
      Strings.SplitNoSeparator(line, '=');
    }
  }

  lemma FirstPieceIsPrefix(pieces: seq<string>)
    requires |pieces| >= 1
    ensures pieces[0] <= Strings.JoinWith(pieces, "=")
  {
    if |pieces| > 1 {
      assert Strings.JoinWith(pieces, "=") == pieces[0] + "=" + Strings.JoinWith(pieces[1..], "=");
    }
  }

  /** "NAME=VALUE" with no other '=' reads back as that pair. */
  lemma ParseLineOneEquals(k: string, v: string)
    requires NoEquals(k) && NoEquals(v)
    ensures ParseLine(k + "=" + v) == (k, v)
  {
    Strings.SplitAtFirst(k, '=', v);
    Strings.SplitNoSeparator(v, '=');
  }

  /** A value that itself contains '=' is cut at that '=': the dump line
      "NAME=a=b" reads back as NAME = "a", and the "=b" is lost. */
  lemma ParseLineTruncates(k: string, a: string, b: string)
    requires NoEquals(k) && NoEquals(a)
    ensures ParseLine(k + "=" + a + "=" + b) == (k, a)
    ensures ParseLine(k + "=" + a + "=" + b).1 != a + "=" + b
  {
    assert k + "=" + a + "=" + b == k + "=" + (a + "=" + b);
    Strings.SplitAtFirst(k, '=', a + "=" + b);
    Strings.SplitAtFirst(a, '=', b);
    assert |a + "=" + b| > |a|;
  }

  /** The concrete case: "A=b=c" gives "b". */
  lemma ParseLineExample()
    ensures ParseLine("A=b=c") == ("A", "b")
  {
    ParseLineTruncates("A", "b", "c");
    assert "A" + "=" + "b" + "=" + "c" == "A=b=c";
  }

  /** The environment map of a dump read with `ParseLine`: every line
      contributes its name, later lines overwriting earlier ones. */
  function ParseEnv(lines: seq<string>): (m: EnvMap)
    ensures forall i :: 0 <= i < |lines| ==> ParseLine(lines[i]).0 in m
    ensures forall k :: k in m ==> exists i :: 0 <= i < |lines| && ParseLine(lines[i]).0 == k
    ensures lines == [] ==> m == map[]
  {
    if |lines| == 0 then map[]
    else
      var init := ParseEnv(lines[..|lines| - 1]);
      var kv := ParseLine(lines[|lines| - 1]);
      assert forall i :: 0 <= i < |lines| - 1 ==> lines[..|lines| - 1][i] == lines[i];
      init[kv.0 := kv.1]
  }

  /** A variable keeps the value of the last line that names it. */
  lemma {:induction false} ParseEnvLastWins(lines: seq<string>, i: nat)
    requires i < |lines|
    requires forall j :: i < j < |lines| ==> ParseLine(lines[j]).0 != ParseLine(lines[i]).0
    ensures ParseEnv(lines)[ParseLine(lines[i]).0] == ParseLine(lines[i]).1
  {
    var init := lines[..|lines| - 1];
    if i < |lines| - 1 {
      assert forall j :: i < j < |init| ==> init[j] == lines[j];
      assert init[i] == lines[i];
      ParseEnvLastWins(init, i);
    }
  }

  /** One line read the way the evidently intended split at the first
      '=' reads it (`split_once`): the value is everything after the
      first '='. */
  function ParseLineAtFirst(line: string): (r: (string, string))
    ensures NoEquals(r.0) && r.0 <= line
    ensures |r.0| < |line| ==> line == r.0 + "=" + r.1
    ensures NoEquals(line) ==> r == (line, "")
  {
    var halves := Strings.Split(line, '=');
    Strings.SplitJoin(line, '=');
    SplitPlain(line);
    FirstPieceIsPrefix(halves);
    if |halves| > 1 then
      assert Strings.JoinWith(halves, "=") == halves[0] + "=" + Strings.JoinWith(halves[1..], "=");
      (halves[0], Strings.JoinWith(halves[1..], "="))
    else (halves[0], "")
  }

  /** With the split at the first '=', every "NAME=VALUE" line reads back
      as exactly that pair, whatever the value contains. */
  lemma {:induction false} ParseLineAtFirstRoundTrip(k: string, v: string)
    requires NoEquals(k)
    ensures ParseLineAtFirst(k + "=" + v) == (k, v)
  {
    Strings.SplitAtFirst(k, '=', v);
    Strings.SplitJoin(v, '=');
    var halves := Strings.Split(k + "=" + v, '=');
    assert halves[1..] == Strings.Split(v, '=');
  }

  /** The environment map with lines read at their first '='. */
  function ParseEnvAtFirst(lines: seq<string>): (m: EnvMap)
    ensures forall i :: 0 <= i < |lines| ==> ParseLineAtFirst(lines[i]).0 in m
  {
    if |lines| == 0 then map[]
    else
      var init := ParseEnvAtFirst(lines[..|lines| - 1]);
      var kv := ParseLineAtFirst(lines[|lines| - 1]);
      assert forall i :: 0 <= i < |lines| - 1 ==> lines[..|lines| - 1][i] == lines[i];
      init[kv.0 := kv.1]
  }

  /** The dump `set` writes: one "NAME=VALUE" line per variable. */
  function DumpLines(vars: seq<(string, string)>): (r: seq<string>)
    ensures |r| == |vars|
    ensures forall i :: 0 <= i < |vars| ==> r[i] == vars[i].0 + "=" + vars[i].1
  {
    seq(|vars|, i requires 0 <= i < |vars| => vars[i].0 + "=" + vars[i].1)
  }

  /** Reading a dump of variables with distinct names (none containing
      '=') at the first '=' gives back every variable with its value. */
  lemma {:induction false} DumpThenParse(vars: seq<(string, string)>)
    requires forall i :: 0 <= i < |vars| ==> NoEquals(vars[i].0)
    requires forall i, j :: 0 <= i < j < |vars| ==> vars[i].0 != vars[j].0
    ensures forall i :: 0 <= i < |vars| ==>
              vars[i].0 in ParseEnvAtFirst(DumpLines(vars))
              && ParseEnvAtFirst(DumpLines(vars))[vars[i].0] == vars[i].1
  {
    if |vars| > 0 {
      var init := vars[..|vars| - 1];
      var last := vars[|vars| - 1];
      var lines := DumpLines(vars);
      DumpThenParse(init);
      var m0 := ParseEnvAtFirst(DumpLines(init));
      assert lines[..|lines| - 1] == DumpLines(init);
      ParseLineAtFirstRoundTrip(last.0, last.1);
      assert ParseEnvAtFirst(lines) == m0[last.0 := last.1];
      forall i | 0 <= i < |vars|
        ensures vars[i].0 in ParseEnvAtFirst(lines) && ParseEnvAtFirst(lines)[vars[i].0] == vars[i].1
      {
        if i < |init| {
          assert init[i] == vars[i];
        }
      }
    }
  }

  /** A dump read the source's way loses values: with one variable whose
      value contains '=', the map differs from the variables dumped. */
  lemma DumpThenParseLoses()
    ensures ParseEnv(DumpLines([("A", "b=c")])) != map["A" := "b=c"]
  {
    var lines := DumpLines([("A", "b=c")]);
    assert lines == ["A" + "=" + "b=c"];
    assert "A" + "=" + "b=c" == "A" + "=" + "b" + "=" + "c";
    ParseLineTruncates("A", "b", "c");
    assert ParseEnv(lines) == map[][ParseLine(lines[0]).0 := ParseLine(lines[0]).1];
  }

  /** The batch file run to capture the environment: it calls
      `vcvarsall.bat` in the auxiliary build directory with the
      architecture (default "x64"), the platform type and the Windows SDK
      version (both empty when absent), then dumps `set` into the dump
      file. */
  function BatchScript(auxDir: Path, arch: Option<string>, platform: Option<string>,
                       sdk: Option<string>, dumpFile: Path): (r: seq<string>)
    ensures |r| == 3 && r[0] == "@echo off"
    ensures r[1] == "@call \"" + Render(Join(auxDir, Rel(["vcvarsall.bat"]))) + "\" "
                    + (if arch.Some? then arch.value else "x64") + " "
                    + (if platform.Some? then platform.value else "") + " "
                    + (if sdk.Some? then sdk.value else "")
    ensures r[2] == "set > " + Render(dumpFile)
  {
    ["@echo off",
     "@call \"" + Render(Join(auxDir, Rel(["vcvarsall.bat"]))) + "\" " + arch.GetOr("x64") + " "
       + platform.GetOr("") + " " + sdk.GetOr(""),
     "set > " + Render(dumpFile)]
  }

  /** What the machine answers during setup: the locator's parsed JSON
      list (or the error of running or parsing it), the canonicalisation
      of a directory, the outcome of running a batch file, and the lines
      of the dump a given batch file leaves behind (None when the dump
      cannot be read). */
  datatype Host = Host(
    locator: Result<seq<string>, Error>,
    canon: Path -> Option<Path>,
    exec: Exec,
    dump: seq<string> -> Option<seq<string>>)

  /** The invocation that runs the batch file. */
  function BatchInvocation(batFile: Path): Invocation {
    Invocation("cmd", ["/C", "@call", Render(batFile)])
  }

  /** `setup_msvc`: no toolchain found is `VcNotFound`; otherwise the
      batch file is run under the revision's exit policy and its dump is
      read back with the revision's parser. */
  function Setup(host: Host, mode: Mode, parse: seq<string> -> EnvMap, arch: Option<string>,
                 platform: Option<string>, sdk: Option<string>,
                 batFile: Path, dumpFile: Path): (r: Result<EnvMap, Error>)
    ensures host.locator.Err? ==> r == Err(host.locator.error)
    ensures host.locator == Ok([]) ==> r == Err(VcNotFound)
    ensures r.Ok? ==>
              && host.locator.Ok? && |host.locator.value| > 0
              && host.canon(Parse(host.locator.value[0])).Some?
              && var script := BatchScript(host.canon(Parse(host.locator.value[0])).value, arch, platform, sdk, dumpFile);
                 && Run(mode, BatchInvocation(batFile), host.exec(BatchInvocation(batFile))).Ok?
                 && host.dump(script).Some?
                 && r.value == parse(host.dump(script).value)
  {
    var found :- host.locator;
    if |found| == 0 then Err(VcNotFound)
    else
      match host.canon(Parse(found[0]))
      case None => Err(IoError)
      case Some(aux) =>
        var script := BatchScript(aux, arch, platform, sdk, dumpFile);
        var _ :- Run(mode, BatchInvocation(batFile), host.exec(BatchInvocation(batFile)));
        match host.dump(script)
        case None => Err(IoError)
        case Some(lines) => Ok(parse(lines))
  }
}
