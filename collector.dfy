/** The built-in collectors of src/collector.rs. Everything they read from
    the running system arrives as a parameter: the argument vector, the
    environment table, the outcome of running a process, the text of a file,
    the operating-system query and the build-time constants. The shell
    quoting library is the parameter `escape`. The collectors that
    src/collectors.rs shares with this file are modelled here once; its
    differences are in module LegacyCollectors. */
module Collector {
  import opened Wrappers
  import opened Entries
  import opened Helper
  import opened Strings
  import Markdown
  import Plaintext

  /** The read-only package metadata every collector is given. */
  datatype CrateInfo = CrateInfo(pkgName: string, pkgVersion: string, gitHash: Option<string>)

  /** The one kind of collection failure. */
  datatype CollectionError = CouldNotRetrieve(reason: string) {
    /** `to_entry`: the text put in the report in place of the output. */
    function ToEntry(): ReportEntry {
      match this
      case CouldNotRetrieve(reason) => Text(reason)
    }
  }

  /** The entry substituted for a failed collector shows its reason, alone
      on a line, in either format. */
  lemma ErrorEntryShowsReason(e: CollectionError)
    ensures e.ToEntry() == Text(e.reason)
    ensures Markdown.Entry(e.ToEntry()) == Plaintext.Entry(e.ToEntry()) == e.reason + "\n"
  {
  }

  // ---------------------------------------------------------------- version

  /** `SoftwareVersion`: the package name and version, and the revision
      when one is known. */
  datatype SoftwareVersion = SoftwareVersion(version: Option<string>) {

    static function Default(): SoftwareVersion { SoftwareVersion(None) }

    static function Custom(version: string): SoftwareVersion { SoftwareVersion(Some(version)) }

    function Description(): string { "Software version" }

    function Collect(info: CrateInfo): (r: Result<ReportEntry, CollectionError>)
      ensures r.Ok? && r.value.Text?
      ensures var line := info.pkgName + " " + version.UnwrapOr(info.pkgVersion);
        && (info.gitHash.None? ==> r.value.content == line)
        && (info.gitHash.Some? ==> r.value.content == line + " (" + info.gitHash.value + ")")
    {
      var gitHashSuffix := match info.gitHash
        case Some(gitHash) => " (" + gitHash + ")"
        case None => "";
      Ok(Text(info.pkgName + " " + version.UnwrapOr(info.pkgVersion) + gitHashSuffix))
    }
  }

  /** A custom version replaces the package version; the default keeps it. */
  lemma SoftwareVersionChoice(info: CrateInfo, v: string)
    requires info.gitHash.None?
    ensures SoftwareVersion.Default().Collect(info) == Ok(Text(info.pkgName + " " + info.pkgVersion))
    ensures SoftwareVersion.Custom(v).Collect(info) == Ok(Text(info.pkgName + " " + v))
  {
  }

  // ----------------------------------------------------- compile-time facts

  /** The values `build.rs` fixes at build time (each is "unknown" when the
      build environment does not provide it). */
  datatype BuildInfo = BuildInfo(
    profile: string, target: string, family: string, os: string, arch: string,
    pointerWidth: string, endian: string, features: string, host: string)
  {
    function Values(): seq<string> {
      [profile, target, family, os, arch, pointerWidth, endian, features, host]
    }
  }

  /** The labels of the compile-time facts, in report order. */
  const CompileTimeLabels: seq<string> :=
    ["Profile", "Target triple", "Family", "OS", "Architecture",
     "Pointer width", "Endian", "CPU features", "Host"]

  /** `CompileTimeInformation`: a fixed list of labelled build facts. */
  datatype CompileTimeInformation = CompileTimeInformation {

    function Description(): string { "Compile time information" }

    function Collect(build: BuildInfo): (r: Result<ReportEntry, CollectionError>)
      ensures r.Ok? && r.value.List? && |r.value.entries| == |CompileTimeLabels| == 9
      ensures forall i :: 0 <= i < 9 ==>
        r.value.entries[i] == Text(CompileTimeLabels[i] + ": " + build.Values()[i])
    {
      assert CompileTimeLabels[0] + ": " == "Profile: ";
      assert CompileTimeLabels[1] + ": " == "Target triple: ";
      assert CompileTimeLabels[2] + ": " == "Family: ";
      assert CompileTimeLabels[3] + ": " == "OS: ";
      assert CompileTimeLabels[4] + ": " == "Architecture: ";
      assert CompileTimeLabels[5] + ": " == "Pointer width: ";
      assert CompileTimeLabels[6] + ": " == "Endian: ";
      assert CompileTimeLabels[7] + ": " == "CPU features: ";
      assert CompileTimeLabels[8] + ": " == "Host: ";
      Ok(List([
        Text("Profile: " + build.profile),
        Text("Target triple: " + build.target),
        Text("Family: " + build.family),
        Text("OS: " + build.os),
        Text("Architecture: " + build.arch),
        Text("Pointer width: " + build.pointerWidth),
        Text("Endian: " + build.endian),
        Text("CPU features: " + build.features),
        Text("Host: " + build.host)
      ]))
    }
  }

  // ----------------------------------------------------------- command line

  /** Every argument escaped and followed by one space, in order. */
  function EscapedWords(args: seq<string>, escape: string -> string): string {
    if args == [] then "" else escape(args[0]) + " " + EscapedWords(args[1..], escape)
  }

  /** The words of `a + b` are the words of `a` followed by those of `b`: one
      escaped argument and exactly one space per argument, in order. */
  lemma {:induction false} EscapedWordsAppend(a: seq<string>, b: seq<string>, escape: string -> string)
    ensures EscapedWords(a + b, escape) == EscapedWords(a, escape) + EscapedWords(b, escape)
  {
    if a == [] {
      assert a + b == b;
    } else {
      assert (a + b)[1..] == a[1..] + b;
      EscapedWordsAppend(a[1..], b, escape);
    }
  }

  lemma EscapedWordsSnoc(args: seq<string>, arg: string, escape: string -> string)
    ensures EscapedWords(args + [arg], escape) == EscapedWords(args, escape) + escape(arg) + " "
  {
    EscapedWordsAppend(args, [arg], escape);
  }

  /** The loop that appends each escaped argument and a space. */
  method AppendEscapedWords(prefix: string, args: seq<string>, escape: string -> string)
    returns (result: string)
    ensures result == prefix + EscapedWords(args, escape)
  {
    result := prefix;
    for i := 0 to |args|
      invariant result == prefix + EscapedWords(args[..i], escape)
    {
      result := result + escape(args[i]);
      result := result + " ";
      EscapedWordsSnoc(args[..i], args[i], escape);
      assert args[..i + 1] == args[..i] + [args[i]];
    }
    assert args[..|args|] == args;
  }

  /** `CommandLine`: the program's own arguments as a shell code block. */
  datatype CommandLine = CommandLine {

    function Description(): string { "Command-line" }

    method Collect(args: seq<string>, escape: string -> string)
      returns (r: Result<ReportEntry, CollectionError>)
      ensures r == Ok(Code(Some("bash"), EscapedWords(args, escape)))
    {
      var result := AppendEscapedWords("", args, escape);
      assert "" + EscapedWords(args, escape) == EscapedWords(args, escape);
      r := Ok(Code(Some("bash"), result));
    }
  }

  // ------------------------------------------------ environment variables

  /** The line for one variable: its escaped value, or a placeholder. */
  function EnvLine(name: string, env: map<string, string>, escape: string -> string): string {
    name + "=" + (if name in env then escape(env[name]) else "<not set>")
  }

  function EnvLines(names: seq<string>, env: map<string, string>, escape: string -> string)
    : (lines: seq<string>)
    ensures |lines| == |names|
    ensures forall i :: 0 <= i < |names| ==> lines[i] == EnvLine(names[i], env, escape)
  {
    seq(|names|, i requires 0 <= i < |names| => EnvLine(names[i], env, escape))
  }

  /** Lines separated by a newline, with none after the last. */
  function JoinLines(lines: seq<string>): string {
    if |lines| == 0 then ""
    else if |lines| == 1 then lines[0]
    else lines[0] + "\n" + JoinLines(lines[1..])
  }

  /** Lines each followed by a newline. */
  function Terminated(lines: seq<string>): string {
    if lines == [] then "" else lines[0] + "\n" + Terminated(lines[1..])
  }

  lemma {:induction false} TerminatedSnoc(lines: seq<string>, line: string)
    ensures Terminated(lines + [line]) == Terminated(lines) + line + "\n"
  {
    if lines == [] {
      assert lines + [line] == [line];
    } else {
      assert (lines + [line])[1..] == lines[1..] + [line];
      TerminatedSnoc(lines[1..], line);
    }
  }

  /** Writing every line with its newline and then popping the last
      character yields the lines joined by newlines. */
  lemma {:induction false} TerminatedIsJoinedPlusNewline(lines: seq<string>)
    requires lines != []
    ensures Terminated(lines) == JoinLines(lines) + "\n"
  {
    if |lines| > 1 {
      TerminatedIsJoinedPlusNewline(lines[1..]);
    }
  }

  /** Joining the lines of `a + b` puts exactly one newline between the two
      groups. */
  lemma {:induction false} JoinLinesAppend(a: seq<string>, b: seq<string>)
    requires a != [] && b != []
    ensures JoinLines(a + b) == JoinLines(a) + "\n" + JoinLines(b)
  {
    if |a| == 1 {
      assert (a + b)[1..] == b;
    } else {
      assert (a + b)[1..] == a[1..] + b;
      JoinLinesAppend(a[1..], b);
    }
  }

  /** One turn of the environment loop: `NAME=value` and a newline. */
  method AppendEnvLine(result: string, name: string, env: map<string, string>, escape: string -> string)
    returns (r: string)
    ensures r == result + EnvLine(name, env, escape) + "\n"
  {
    var value := if name in env then escape(env[name]) else "<not set>";
    r := result + name + "=" + value + "\n";
  }

  /** `EnvironmentVariables`: the listed variables, in list order, as a shell
      code block. */
  datatype EnvironmentVariables = EnvironmentVariables(list: seq<string>) {

    function Description(): string { "Environment variables" }

    method Collect(env: map<string, string>, escape: string -> string)
      returns (r: Result<ReportEntry, CollectionError>)
      ensures r == Ok(Code(Some("bash"), JoinLines(EnvLines(list, env, escape))))
    {
      ghost var lines := EnvLines(list, env, escape);
      var result := "";
      for i := 0 to |list|
        invariant result == Terminated(lines[..i])
      {
        result := AppendEnvLine(result, list[i], env, escape);
        TerminatedSnoc(lines[..i], lines[i]);
        assert lines[..i + 1] == lines[..i] + [lines[i]];
      }
      assert lines[..|list|] == lines;
      if list != [] {
        TerminatedIsJoinedPlusNewline(lines);
        result := result[..|result| - 1];
      }
      r := Ok(Code(Some("bash"), result));
    }
  }

  /** A set variable shows its escaped value, an unset one the placeholder,
      and an empty list gives an empty block. */
  lemma EnvironmentVariablesExamples(escape: string -> string)
    ensures JoinLines(EnvLines(["FOO"], map["FOO" := "bar"], escape)) == "FOO=" + escape("bar")
    ensures JoinLines(EnvLines(["FOO"], map[], escape)) == "FOO=<not set>"
    ensures JoinLines(EnvLines([], map[], escape)) == ""
  {
  }

  // --------------------------------------------------------- command output

  /** What running the process produced: each stream is None when it is not
      valid UTF-8; `exitCode` is None when the process ended by a signal. */
  datatype ProcessOutput = ProcessOutput(stdout: Option<string>, stderr: Option<string>, exitCode: Option<int>)

  /** `ExitStatus::success`: the process exited with code 0. */
  predicate Succeeded(exitCode: Option<int>) {
    exitCode == Some(0)
  }

  /** The line that shows the command: prompt, command, escaped arguments. */
  function Invocation(cmd: string, args: seq<string>, escape: string -> string): string {
    "> " + cmd + " " + EscapedWords(args, escape) + "\n"
  }

  /** The note added after the output of a command that failed. */
  function FailureNote(exitCode: Option<int>): string {
    "Command failed" + (match exitCode case Some(c) => " with exit code " + IntToString(c) case None => "") + "."
  }

  /** `CommandOutput`: the output of one command, run with its arguments.
      `run` is the spawn result: the captured output, or the error text. */
  datatype CommandOutput = CommandOutput(title: string, cmd: string, args: seq<string>) {

    static function New(title: string, cmd: string, args: seq<string>): (c: CommandOutput)
      ensures c.Description() == title && c.cmd == cmd && c.args == args
    {
      CommandOutput(title, cmd, args)
    }

    function Description(): string { title }

    /** What `collect` returns, as a function of the run. */
    function Outcome(run: Result<ProcessOutput, string>, escape: string -> string)
      : Result<ReportEntry, CollectionError>
    {
      match run
      case Err(e) => Err(CouldNotRetrieve("Could not run command '" + cmd + "': " + e))
      case Ok(output) =>
        if output.stdout.None? || output.stderr.None? then
          Err(CouldNotRetrieve("Error while running command '" + cmd + "': output is not valid UTF-8."))
        else
          var text := Invocation(cmd, args, escape) + output.stdout.value + output.stderr.value;
          var block := Code(None, TrimEnd(text));
          Ok(Concat(if Succeeded(output.exitCode) then [block] else [block, Text(FailureNote(output.exitCode))]))
    }

    /** `collect` as written: build the invocation line with a loop, append
        both streams, trim in place, then add the failure note if needed. */
    method Collect(run: Result<ProcessOutput, string>, escape: string -> string)
      returns (r: Result<ReportEntry, CollectionError>)
      ensures r == Outcome(run, escape)
    {
      var result := "> " + cmd + " ";
      result := AppendEscapedWords(result, args, escape);
      result := result + "\n";
      if run.Err? {
        return Err(CouldNotRetrieve("Could not run command '" + cmd + "': " + run.error));
      }
      var output := run.value;
      if output.stdout.None? || output.stderr.None? {
        return Err(CouldNotRetrieve("Error while running command '" + cmd + "': output is not valid UTF-8."));
      }
      result := result + output.stdout.value;
      result := result + output.stderr.value;
      assert result == Invocation(cmd, args, escape) + output.stdout.value + output.stderr.value;
      result := TrimEndInPlace(result);
      var concat := [Code(None, result)];
      if !Succeeded(output.exitCode) {
        concat := concat + [Text(FailureNote(output.exitCode))];
        assert concat == [Code(None, result), Text(FailureNote(output.exitCode))];
      }
      r := Ok(Concat(concat));
    }
  }

  /** A command that runs and produces UTF-8 output is always collected, even
      when it fails: the entry is the trimmed code block, followed by a note
      exactly when the exit status is not success. Spawn and decoding
      failures are the only errors, and their reasons name the command. */
  lemma CommandOutputCases(c: CommandOutput, run: Result<ProcessOutput, string>, escape: string -> string)
    ensures var r := c.Outcome(run, escape);
      && (r.Ok? <==> run.Ok? && run.value.stdout.Some? && run.value.stderr.Some?)
      && (run.Err? ==> r == Err(CouldNotRetrieve("Could not run command '" + c.cmd + "': " + run.error)))
      && (r.Ok? ==>
            && r.value.Concat?
            && |r.value.entries| == (if Succeeded(run.value.exitCode) then 1 else 2)
            && r.value.entries[0].Code?
            && r.value.entries[0].language.None?
            && (!Succeeded(run.value.exitCode) ==> r.value.entries[1] == Text(FailureNote(run.value.exitCode))))
  {
  }

  /** The note names the exit code when there is one. */
  lemma FailureNoteText(code: int)
    ensures FailureNote(Some(code)) == "Command failed with exit code " + IntToString(code) + "."
    ensures FailureNote(None) == "Command failed."
  {
  }

  /** Trimming only reaches into the captured output: when the output has
      any non-whitespace character, the block is the full invocation line
      followed by the output with its trailing whitespace removed. */
  lemma {:induction false} CommandOutputKeepsInvocation(
    c: CommandOutput, stdout: string, stderr: string, exitCode: Option<int>, escape: string -> string)
    requires !AllWhitespace(stdout + stderr)
    ensures var r := c.Outcome(Ok(ProcessOutput(Some(stdout), Some(stderr), exitCode)), escape);
      r.Ok? && r.value.entries[0].code == Invocation(c.cmd, c.args, escape) + TrimEnd(stdout + stderr)
  {
    var line := Invocation(c.cmd, c.args, escape);
    var out := stdout + stderr;
    var t := TrimEnd(out);
    assert t != [] by {
      assert out[0..] == out;
    }
    assert out == t + out[|t|..];
    assert line + stdout + stderr == (line + t) + out[|t|..];
    TrimEndUnique(line + t, out[|t|..]);
  }

  /** The headings of the collectors with a fixed description; the others
      (`CommandOutput`, `FileContent`) show the title given to `New`. */
  lemma Descriptions(version: Option<string>, list: seq<string>)
    ensures SoftwareVersion(version).Description() == "Software version"
    ensures CompileTimeInformation.CompileTimeInformation.Description() == "Compile time information"
    ensures CommandLine.CommandLine.Description() == "Command-line"
    ensures OperatingSystem.OperatingSystem.Description() == "Operating system"
    ensures EnvironmentVariables(list).Description() == "Environment variables"
  {
  }

  // ----------------------------------------------------------- file content

  /** `FileContent`: the text of one file. `read` is the whole file decoded
      as UTF-8, or the error text. */
  datatype FileContent = FileContent(title: string, path: string) {

    static function New(title: string, path: string): (f: FileContent)
      ensures f.Description() == title && f.path == path
    {
      FileContent(title, path)
    }

    function Description(): string { title }

    function Collect(read: Result<string, string>): (r: Result<ReportEntry, CollectionError>)
      ensures r.Ok? <==> read.Ok?
      ensures read.Err? ==>
        r.error.reason == "Could not read contents of '" + path + "': " + read.error + "."
      ensures read.Ok? ==>
        && r.value.Code? && r.value.language.None?
        && r.value.code <= read.value
        && AllWhitespace(read.value[|r.value.code|..])
        && (r.value.code == [] || !IsWhitespace(r.value.code[|r.value.code| - 1]))
    {
      match read
      case Err(e) => Err(CouldNotRetrieve("Could not read contents of '" + path + "': " + e + "."))
      case Ok(content) => Ok(Code(None, TrimEnd(content)))
    }
  }

  // ------------------------------------------------------- operating system

  /** `OperatingSystem`: the long OS version from the system-information
      query, or "Unknown" when the query has no answer. */
  datatype OperatingSystem = OperatingSystem {

    function Description(): string { "Operating system" }

    function Collect(longOsVersion: Option<string>): (r: Result<ReportEntry, CollectionError>)
      ensures r.Ok? && r.value.Text?
      ensures longOsVersion.Some? ==> r.value.content == longOsVersion.value
      ensures longOsVersion.None? ==> r.value.content == "Unknown"
    {
      Ok(Text(longOsVersion.UnwrapOr("Unknown")))
    }
  }
}
