/** The `Markdown` format of src/format/markdown.rs. */
module Markdown {
  import opened Wrappers
  import opened Entries

  /** `format_section`: a level-four heading followed by a blank line. */
  function Section(title: string): (r: string)
    ensures |r| == |title| + 7
    ensures r[..5] == "#### " && r[|r| - 2..] == "\n\n"
    ensures r[5..|r| - 2] == title
  {
    "#### " + title + "\n\n"
  }

  /** The fence's info string: the language, or nothing. */
  function LanguageTag(language: Option<string>): string {
    language.UnwrapOr("")
  }

  /** `format_entry`, as a function of the tree. */
  function Entry(e: ReportEntry): string
    decreases e, 1
  {
    match e
    case Text(content) => content + "\n"
    case Code(language, code) => "```" + LanguageTag(language) + "\n" + code + "\n```\n"
    case List(es) => Items(es)
    case Concat(es) => Joined(es)
  }

  /** The `List` arm: every child behind a "- " bullet, in order. */
  function Items(es: seq<ReportEntry>): string
    decreases es, 0
  {
    if es == [] then "" else "- " + Entry(es[0]) + Items(es[1..])
  }

  /** The `Concat` arm: the children back to back. */
  function Joined(es: seq<ReportEntry>): string
    decreases es, 0
  {
    if es == [] then "" else Entry(es[0]) + Joined(es[1..])
  }

  /** `format_entry` as written: the `List` and `Concat` arms loop over the
      children, appending to `result`, and recurse on each child. */
  method FormatEntry(e: ReportEntry) returns (result: string)
    ensures result == Entry(e)
    decreases e
  {
    match e
    case Text(content) =>
      result := content + "\n";
    case Code(language, code) =>
      result := "```" + LanguageTag(language) + "\n" + code + "\n```\n";
    case List(es) =>
      result := "";
      for i := 0 to |es|
        invariant result == Items(es[..i])
      {
        result := result + "- ";
        var child := FormatEntry(es[i]);
        result := result + child;
        ItemsSnoc(es[..i], es[i]);
        assert es[..i + 1] == es[..i] + [es[i]];
      }
      assert es[..|es|] == es;
    case Concat(es) =>
      result := "";
      for i := 0 to |es|
        invariant result == Joined(es[..i])
      {
        var child := FormatEntry(es[i]);
        result := result + child;
        JoinedSnoc(es[..i], es[i]);
        assert es[..i + 1] == es[..i] + [es[i]];
      }
      assert es[..|es|] == es;
  }

  /** A `List` of `a + b` renders as the list of `a` followed by the list of
      `b`: children are rendered in order and independently. */
  lemma {:induction false} ItemsAppend(a: seq<ReportEntry>, b: seq<ReportEntry>)
    ensures Items(a + b) == Items(a) + Items(b)
  {
    if a == [] {
      assert a + b == b;
    } else {
      assert (a + b)[1..] == a[1..] + b;
      ItemsAppend(a[1..], b);
    }
  }

  /** The same for `Concat`. */
  lemma {:induction false} JoinedAppend(a: seq<ReportEntry>, b: seq<ReportEntry>)
    ensures Joined(a + b) == Joined(a) + Joined(b)
  {
    if a == [] {
      assert a + b == b;
    } else {
      assert (a + b)[1..] == a[1..] + b;
      JoinedAppend(a[1..], b);
    }
  }

  /** One more child adds one more bullet line at the end. */
  lemma ItemsSnoc(es: seq<ReportEntry>, e: ReportEntry)
    ensures Items(es + [e]) == Items(es) + "- " + Entry(e)
  {
    ItemsAppend(es, [e]);
    assert Items([e]) == "- " + Entry(e) + Items([]);
  }

  /** One more part adds its rendering at the end. */
  lemma JoinedSnoc(es: seq<ReportEntry>, e: ReportEntry)
    ensures Joined(es + [e]) == Joined(es) + Entry(e)
  {
    JoinedAppend(es, [e]);
    assert Joined([e]) == Entry(e) + Joined([]);
  }

  /** An empty `List` or `Concat` renders as nothing. */
  lemma EmptyContainers()
    ensures Entry(List([])) == "" && Entry(Concat([])) == ""
  {
  }

  /** Each child of a `List` renders as a bullet line of its own: the list's
      rendering is the bullets of its children, one after the other. */
  lemma {:induction false} ItemsAsBullets(es: seq<ReportEntry>, i: nat)
    requires i < |es|
    ensures Items(es) == Items(es[..i]) + "- " + Entry(es[i]) + Items(es[i + 1..])
  {
    assert es == es[..i] + [es[i]] + es[i + 1..];
    ItemsAppend(es[..i] + [es[i]], es[i + 1..]);
    ItemsSnoc(es[..i], es[i]);
  }
}
