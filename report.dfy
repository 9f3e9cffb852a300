/** The earlier `ReportEntry` (no `Concat`) and `Report::to_markdown` of
    src/report.rs. */
module Report {
  import opened Wrappers
  import Entries
  import Markdown

  datatype ReportEntry =
    | Text(content: string)
    | Code(language: Option<string>, code: string)
    | List(entries: seq<ReportEntry>)

  datatype ReportSection = ReportSection(title: string, entry: ReportEntry)

  /** `ReportEntry::to_markdown`, as a function of the tree. */
  function EntryMarkdown(e: ReportEntry): string
    decreases e, 1
  {
    match e
    case Text(content) => content + "\n"
    case Code(language, code) => "```" + language.UnwrapOr("") + "\n" + code + "\n```\n"
    case List(es) => Items(es)
  }

  function Items(es: seq<ReportEntry>): string
    decreases es, 0
  {
    if es == [] then "" else "- " + EntryMarkdown(es[0]) + Items(es[1..])
  }

  /** The text one section contributes to the report. */
  function Block(s: ReportSection): string {
    "## " + s.title + "\n\n" + EntryMarkdown(s.entry) + "\n"
  }

  /** `Report::to_markdown`, as a function of the sections. */
  function ReportMarkdown(sections: seq<ReportSection>): string {
    if sections == [] then "" else ReportMarkdown(sections[..|sections| - 1]) + Block(sections[|sections| - 1])
  }

  datatype Report = Report(sections: seq<ReportSection>) {

    /** `Report::to_markdown` as written: one loop over the sections. */
    method ToMarkdown() returns (result: string)
      ensures result == ReportMarkdown(sections)
    {
      result := "";
      for i := 0 to |sections|
        invariant result == ReportMarkdown(sections[..i])
      {
        result := result + "## " + sections[i].title + "\n\n";
        var entry := ToMarkdownEntry(sections[i].entry);
        result := result + entry + "\n";
        assert sections[..i + 1][..i] == sections[..i];
      }
      assert sections[..|sections|] == sections;
    }
  }

  /** `ReportEntry::to_markdown` as written: the `List` arm loops over the
      children, appending a bullet and the child's rendering. */
  method ToMarkdownEntry(e: ReportEntry) returns (result: string)
    ensures result == EntryMarkdown(e)
    decreases e
  {
    match e
    case Text(content) =>
      result := content + "\n";
    case Code(language, code) =>
      result := "```" + language.UnwrapOr("") + "\n" + code + "\n```\n";
    case List(es) =>
      result := "";
      for i := 0 to |es|
        invariant result == Items(es[..i])
      {
        var child := ToMarkdownEntry(es[i]);
        result := result + "- " + child;
        ItemsSnoc(es[..i], es[i]);
        assert es[..i + 1] == es[..i] + [es[i]];
      }
      assert es[..|es|] == es;
  }

  lemma {:induction false} ItemsSnoc(es: seq<ReportEntry>, e: ReportEntry)
    ensures Items(es + [e]) == Items(es) + "- " + EntryMarkdown(e)
  {
    if es == [] {
      assert es + [e] == [e];
    } else {
      assert (es + [e])[1..] == es[1..] + [e];
      ItemsSnoc(es[1..], e);
    }
  }

  /** The entry of this revision as an entry of the later one. */
  function Upgrade(e: ReportEntry): Entries.ReportEntry {
    match e
    case Text(content) => Entries.Text(content)
    case Code(language, code) => Entries.Code(language, code)
    case List(es) => Entries.List(seq(|es|, i requires 0 <= i < |es| => Upgrade(es[i])))
  }

  /** The later Markdown format renders every entry of this revision exactly
      as `to_markdown` did. */
  lemma {:induction false} MarkdownFormatAgrees(e: ReportEntry)
    ensures Markdown.Entry(Upgrade(e)) == EntryMarkdown(e)
    decreases e, 1
  {
    match e
    case Text(_) =>
    case Code(_, _) =>
    case List(es) => ItemsAgree(es);
  }

  lemma {:induction false} ItemsAgree(es: seq<ReportEntry>)
    ensures Markdown.Items(seq(|es|, i requires 0 <= i < |es| => Upgrade(es[i]))) == Items(es)
    decreases es, 0
  {
    var up := seq(|es|, i requires 0 <= i < |es| => Upgrade(es[i]));
    if es != [] {
      MarkdownFormatAgrees(es[0]);
      ItemsAgree(es[1..]);
      assert up[1..] == seq(|es[1..]|, i requires 0 <= i < |es[1..]| => Upgrade(es[1..][i]));
    }
  }

  /** Rendering distributes over the section list: adding sections only
      appends their blocks and never changes the text of earlier ones. */
  lemma {:induction false} ReportMarkdownAppend(a: seq<ReportSection>, b: seq<ReportSection>)
    ensures ReportMarkdown(a + b) == ReportMarkdown(a) + ReportMarkdown(b)
    decreases |b|
  {
    if b == [] {
      assert a + b == a;
    } else {
      var b', last := b[..|b| - 1], b[|b| - 1];
      assert (a + b)[..|a + b| - 1] == a + b';
      assert (a + b)[|a + b| - 1] == last;
      ReportMarkdownAppend(a, b');
      calc {
        ReportMarkdown(a + b);
        ReportMarkdown(a + b') + Block(last);
        ReportMarkdown(a) + ReportMarkdown(b') + Block(last);
        ReportMarkdown(a) + ReportMarkdown(b);
      }
    }
  }

  /** The sum of the lengths of the sections' blocks. */
  function BlocksLength(sections: seq<ReportSection>): nat {
    if sections == [] then 0 else BlocksLength(sections[..|sections| - 1]) + |Block(sections[|sections| - 1])|
  }

  /** A report with no sections is empty, and in general its length is the
      sum of its sections' block lengths. */
  lemma {:induction false} ReportMarkdownLength(sections: seq<ReportSection>)
    ensures |ReportMarkdown(sections)| == BlocksLength(sections)
    ensures sections == [] ==> ReportMarkdown(sections) == ""
  {
    if sections != [] {
      ReportMarkdownLength(sections[..|sections| - 1]);
    }
  }
}
