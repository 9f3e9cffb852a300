/** The `Format` trait of src/format/mod.rs, closed over its two
    implementations: a format turns a section title and an entry tree into
    text, with no state kept between calls. */
module Format {
  import opened Entries
  import Markdown
  import Plaintext

  datatype Format = MarkdownFormat | PlaintextFormat {

    function FormatSection(title: string): string {
      match this
      case MarkdownFormat => Markdown.Section(title)
      case PlaintextFormat => Plaintext.Section(title)
    }

    function FormatEntry(entry: ReportEntry): string {
      match this
      case MarkdownFormat => Markdown.Entry(entry)
      case PlaintextFormat => Plaintext.Entry(entry)
    }
  }

  /** The two formats are interchangeable on every tree without a code
      block. */
  lemma FormatsAgreeWithoutCode(entry: ReportEntry)
    requires CodeFree(entry)
    ensures MarkdownFormat.FormatEntry(entry) == PlaintextFormat.FormatEntry(entry)
  {
    Plaintext.AgreesWithMarkdown(entry);
  }
}
