/** The first `Report` of src/lib.rs: a builder that holds its collectors in
    a vector and renders them in registration order. Its collectors produce
    plain strings; what they read from the running process is a `Host`. */
module BugReport {
  import opened Wrappers

  /** The process's arguments (None when one of them is not valid Unicode,
      where `std::env::args` panics) and the two system queries (None when
      the query failed). */
  datatype Host = Host(args: Option<seq<string>>, osType: Option<string>, osRelease: Option<string>)

  /** The collectors of this revision: the closed form of its `Collector`
      trait. */
  datatype StringCollector = SoftwareVersion(version: string) | CommandLineArguments | OperatingSystem {

    function Description(): string {
      match this
      case SoftwareVersion(_) => "Software version"
      case CommandLineArguments => "Command-line arguments"
      case OperatingSystem => "Operating system"
    }

    /** What `collect` returns; None where it panics. `collect` never
        returns an error in this revision, but the arguments collector
        panics on an argument that is not valid Unicode, and the
        operating-system collector unwraps both queries and so aborts when
        either fails. */
    function Collected(host: Host): Option<string> {
      match this
      case SoftwareVersion(version) => Some(version)
      case CommandLineArguments =>
        if host.args.Some? then Some("[" + QuotedArgs(host.args.value) + "]") else None
      case OperatingSystem =>
        if host.osType.Some? && host.osRelease.Some? then Some(host.osType.value + " " + host.osRelease.value)
        else None
    }

    /** `collect` as written. */
    method Collect(host: Host) returns (s: string)
      requires Collected(host).Some?
      ensures Some(s) == Collected(host)
    {
      match this
      case SoftwareVersion(version) =>
        s := version;
      case CommandLineArguments =>
        s := CollectArguments(host.args.value);
      case OperatingSystem =>
        s := host.osType.value + " " + host.osRelease.value;
    }
  }

  /** Every argument in single quotes, followed by a comma and a space. */
  function QuotedArgs(args: seq<string>): string {
    if args == [] then "" else QuotedArgs(args[..|args| - 1]) + "'" + args[|args| - 1] + "', "
  }

  /** `CommandLineArguments::collect`: a loop over the arguments between
      brackets. */
  method CollectArguments(args: seq<string>) returns (result: string)
    ensures result == "[" + QuotedArgs(args) + "]"
  {
    result := "[";
    for i := 0 to |args|
      invariant result == "[" + QuotedArgs(args[..i])
    {
      result := result + "'" + args[i] + "', ";
      assert args[..i + 1][..i] == args[..i];
    }
    assert args[..|args|] == args;
    result := result + "]";
  }

  /** The quoted list of `a + b` is that of `a` followed by that of `b`. */
  lemma {:induction false} QuotedArgsAppend(a: seq<string>, b: seq<string>)
    ensures QuotedArgs(a + b) == QuotedArgs(a) + QuotedArgs(b)
    decreases |b|
  {
    if b == [] {
      assert a + b == a;
    } else {
      var b', last := b[..|b| - 1], b[|b| - 1];
      assert (a + b)[..|a + b| - 1] == a + b';
      QuotedArgsAppend(a, b');
      calc {
        QuotedArgs(a + b);
        QuotedArgs(a + b') + "'" + last + "', ";
        QuotedArgs(a) + QuotedArgs(b') + "'" + last + "', ";
        QuotedArgs(a) + QuotedArgs(b);
      }
    }
  }

  /** The block one collector contributes to the report. */
  function Block(description: string, collected: string): string {
    "## " + description + "\n\n" + collected + "\n\n"
  }

  /** What `generate` returns: the blocks of the collectors, in order; None
      when one of them panics. */
  function Generated(collectors: seq<StringCollector>, host: Host): Option<string> {
    if collectors == [] then Some("")
    else
      var last := collectors[|collectors| - 1];
      match (Generated(collectors[..|collectors| - 1], host), last.Collected(host))
      case (Some(report), Some(collected)) => Some(report + Block(last.Description(), collected))
      case _ => None
  }

  /** One turn of `generate`'s loop: heading, blank line, output, blank line. */
  method AppendBlock(report: string, description: string, collected: string) returns (r: string)
    ensures r == report + Block(description, collected)
  {
    r := report + "## ";
    r := r + description;
    r := r + "\n\n";
    r := r + collected;
    r := r + "\n\n";
  }

  class Report {
    var collectors: seq<StringCollector>

    /** `Report::new`: no collectors yet. */
    constructor ()
      ensures collectors == []
    {
      collectors := [];
    }

    /** `add`: register one more collector after the others. */
    method Add(collector: StringCollector)
      modifies this
      ensures collectors == old(collectors) + [collector]
    {
      collectors := collectors + [collector];
    }

    /** `generate`: call every collector once, in registration order, and
        append its heading and output. `invoked` records the calls. */
    method Generate(host: Host) returns (report: string, ghost invoked: seq<StringCollector>)
      requires Generated(collectors, host).Some?
      ensures Some(report) == Generated(collectors, host)
      ensures invoked == collectors
    {
      report := "";
      invoked := [];
      for i := 0 to |collectors|
        invariant Some(report) == Generated(collectors[..i], host)
        invariant invoked == collectors[..i]
      {
        var collector := collectors[i];
        assert collectors[..i + 1] == collectors[..i] + [collector];
        GeneratedPrefix(collectors, i + 1, host);
        GeneratedAppend(collectors[..i], collector, host);
        var collected := collector.Collect(host);
        invoked := invoked + [collector];
        report := AppendBlock(report, collector.Description(), collected);
      }
      assert collectors[..|collectors|] == collectors;
    }
  }

  /** If the whole report can be generated, so can every prefix of it, and
      the last collector of the prefix does not panic. */
  lemma {:induction false} GeneratedPrefix(collectors: seq<StringCollector>, n: nat, host: Host)
    requires n <= |collectors| && Generated(collectors, host).Some?
    ensures Generated(collectors[..n], host).Some?
    ensures 0 < n ==> collectors[n - 1].Collected(host).Some?
    decreases |collectors|
  {
    if n < |collectors| {
      GeneratedPrefix(collectors[..|collectors| - 1], n, host);
      assert collectors[..|collectors| - 1][..n] == collectors[..n];
    } else {
      assert collectors[..n] == collectors;
    }
  }

  /** Generation fails exactly when some collector panics. */
  lemma {:induction false} GeneratedSomeIff(collectors: seq<StringCollector>, host: Host)
    ensures Generated(collectors, host).Some?
        <==> forall i :: 0 <= i < |collectors| ==> collectors[i].Collected(host).Some?
  {
    if collectors != [] {
      var init := collectors[..|collectors| - 1];
      GeneratedSomeIff(init, host);
      assert forall i :: 0 <= i < |init| ==> init[i] == collectors[i];
    }
  }

  /** Registering a collector leaves the report generated so far in place
      and appends exactly that collector's block; generation panics exactly
      when the earlier collectors or the new one do. */
  lemma GeneratedAppend(collectors: seq<StringCollector>, c: StringCollector, host: Host)
    ensures Generated(collectors + [c], host).Some?
        <==> Generated(collectors, host).Some? && c.Collected(host).Some?
    ensures Generated(collectors + [c], host).Some? ==>
      Generated(collectors + [c], host).value
        == Generated(collectors, host).value + Block(c.Description(), c.Collected(host).value)
  {
    assert (collectors + [c])[..|collectors|] == collectors;
  }

  /** A new report generates the empty string; one built by `add` calls
      generates the blocks of its collectors in the order they were added. */
  method BuilderExample(host: Host) returns (report: string)
    requires host.osType.Some? && host.osRelease.Some?
    ensures report == Block("Operating system", host.osType.value + " " + host.osRelease.value)
                    + Block("Software version", "1.3.4")
  {
    var r := new Report();
    var empty, _ := r.Generate(host);
    assert empty == "";
    r.Add(OperatingSystem);
    r.Add(SoftwareVersion("1.3.4"));
    assert r.collectors == [OperatingSystem] + [SoftwareVersion("1.3.4")];
    GeneratedAppend([], OperatingSystem, host);
    assert [] + [OperatingSystem] == [OperatingSystem];
    GeneratedAppend([OperatingSystem], SoftwareVersion("1.3.4"), host);
    ghost var calls;
    report, calls := r.Generate(host);
  }

  /** The arguments collector quotes each argument in order. */
  lemma CommandLineArgumentsExample()
    ensures CommandLineArguments.Collected(Host(Some(["prog", "-v"]), None, None)) == Some("['prog', '-v', ]")
  {
    var args: seq<string> := ["prog", "-v"];
    assert args[..1] == ["prog"];
    assert ["prog"][..0] == [];
    var first := QuotedArgs(["prog"]);
    assert first == "" + "'" + "prog" + "', ";
    assert first == "'prog', ";
    assert QuotedArgs(args) == first + "'" + "-v" + "', ";
    assert QuotedArgs(args) == "'prog', '-v', ";
    assert "[" + "'prog', '-v', " + "]" == "['prog', '-v', ]";
  }

  /** The headings of the three collectors. */
  lemma Descriptions(version: string)
    ensures SoftwareVersion(version).Description() == "Software version"
    ensures CommandLineArguments.Description() == "Command-line arguments"
    ensures OperatingSystem.Description() == "Operating system"
  {
  }

  /** Each collector panics exactly where the source unwraps a failure: the
      arguments collector on an argument that is not valid Unicode, the
      operating-system collector when either query fails; the version
      collector never does. */
  lemma CollectedPanics(version: string, host: Host)
    ensures SoftwareVersion(version).Collected(host) == Some(version)
    ensures CommandLineArguments.Collected(host).None? <==> host.args.None?
    ensures OperatingSystem.Collected(host).None? <==> host.osType.None? || host.osRelease.None?
  {
  }
}
