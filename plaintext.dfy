/** The `Plaintext` format of src/format/plaintext.rs. */
module Plaintext {
  import opened Entries
  import Markdown

  /** The width of the dashed heading line. */
  const Width: nat := 48

  function Dashes(n: nat): (r: string)
    ensures |r| == n && forall i :: 0 <= i < n ==> r[i] == '-'
  {
    seq(n, _ => '-')
  }

  /** `format_section`: `format!("{:-^48}\n", title)`. Rust's centre
      alignment splits the padding `Width - |title|` (none when the title is
      at least as wide) into `padding / 2` fill characters before the title
      and `(padding + 1) / 2` after it. */
  function Section(title: string): string {
    var padding := if |title| < Width then Width - |title| else 0;
    Dashes(padding / 2) + title + Dashes((padding + 1) / 2) + "\n"
  }

  /** `format_entry`, as a function of the tree. */
  function Entry(e: ReportEntry): string
    decreases e, 1
  {
    match e
    case Text(content) => content + "\n"
    case Code(_, code) => code + "\n"
    case List(es) => Items(es)
    case Concat(es) => Joined(es)
  }

  /** The `List` arm: every child behind a "- " bullet, in order. */
  function Items(es: seq<ReportEntry>): string
    decreases es, 0
  {
    if es == [] then "" else "- " + Entry(es[0]) + Items(es[1..])
  }

  /** The `Concat` arm: the children back to back. */
  function Joined(es: seq<ReportEntry>): string
    decreases es, 0
  {
    if es == [] then "" else Entry(es[0]) + Joined(es[1..])
  }

  /** `format_entry` as written, looping over the children of `List` and
      `Concat` and appending to `result`. */
  method FormatEntry(e: ReportEntry) returns (result: string)
    ensures result == Entry(e)
    decreases e
  {
    match e
    case Text(content) =>
      result := content + "\n";
    case Code(_, code) =>
      result := code + "\n";
    case List(es) =>
      result := "";
      for i := 0 to |es|
        invariant result == Items(es[..i])
      {
        result := result + "- ";
        var child := FormatEntry(es[i]);
        result := result + child;
        ItemsSnoc(es[..i], es[i]);
        assert es[..i + 1] == es[..i] + [es[i]];
      }
      assert es[..|es|] == es;
    case Concat(es) =>
      result := "";
      for i := 0 to |es|
        invariant result == Joined(es[..i])
      {
        var child := FormatEntry(es[i]);
        result := result + child;
        JoinedSnoc(es[..i], es[i]);
        assert es[..i + 1] == es[..i] + [es[i]];
      }
      assert es[..|es|] == es;
  }

  /** The heading is one line of `max(48, |title|)` characters: a short
      title is centred between runs of dashes whose right run is never
      shorter than the left one and longer by at most one; a title of 48
      characters or more stands alone. */
  lemma SectionShape(title: string)
    ensures var r := Section(title);
      && |r| == (if |title| < Width then Width else |title|) + 1
      && r[|r| - 1] == '\n'
      && (|title| >= Width ==> r == title + "\n")
      && (|title| < Width ==>
            var left := (Width - |title|) / 2;
            var right := Width - |title| - left;
            && left <= right <= left + 1
            && r == Dashes(left) + title + Dashes(right) + "\n")
  {
    if |title| >= Width {
      assert Dashes(0) == "";
    }
  }

  /** One more child adds one more bullet line at the end. */
  lemma {:induction false} ItemsSnoc(es: seq<ReportEntry>, e: ReportEntry)
    ensures Items(es + [e]) == Items(es) + "- " + Entry(e)
  {
    if es == [] {
      assert es + [e] == [e];
    } else {
      assert (es + [e])[1..] == es[1..] + [e];
      ItemsSnoc(es[1..], e);
    }
  }

  /** One more part adds its rendering at the end. */
  lemma {:induction false} JoinedSnoc(es: seq<ReportEntry>, e: ReportEntry)
    ensures Joined(es + [e]) == Joined(es) + Entry(e)
  {
    if es == [] {
      assert es + [e] == [e];
    } else {
      assert (es + [e])[1..] == es[1..] + [e];
      JoinedSnoc(es[1..], e);
    }
  }

  /** A `Code` node shows its code only: the language tag never reaches the
      output, so two code blocks that differ only in their tag render alike. */
  lemma CodeDropsLanguage(language: Wrappers.Option<string>, code: string)
    ensures Entry(Code(language, code)) == Entry(Code(Wrappers.None, code)) == code + "\n"
  {
  }

  /** The two formats differ only in how they render `Code`: on a tree
      without code blocks they produce the same text. */
  lemma {:induction false} AgreesWithMarkdown(e: ReportEntry)
    requires CodeFree(e)
    ensures Entry(e) == Markdown.Entry(e)
    decreases e, 1
  {
    match e
    case Text(_) =>
    case List(es) => ItemsAgree(es);
    case Concat(es) => JoinedAgree(es);
  }

  lemma {:induction false} ItemsAgree(es: seq<ReportEntry>)
    requires forall i :: 0 <= i < |es| ==> CodeFree(es[i])
    ensures Items(es) == Markdown.Items(es)
    decreases es, 0
  {
    if es != [] {
      AgreesWithMarkdown(es[0]);
      ItemsAgree(es[1..]);
    }
  }

  lemma {:induction false} JoinedAgree(es: seq<ReportEntry>)
    requires forall i :: 0 <= i < |es| ==> CodeFree(es[i])
    ensures Joined(es) == Markdown.Joined(es)
    decreases es, 0
  {
    if es != [] {
      AgreesWithMarkdown(es[0]);
      JoinedAgree(es[1..]);
    }
  }

  /** A 16-character title is centred between two runs of 16 dashes. */
  lemma SectionExample()
    ensures Section("Software version") == Dashes(16) + "Software version" + Dashes(16) + "\n"
  {
    var title := "Software version";
    assert |title| == 16;
  }
}
