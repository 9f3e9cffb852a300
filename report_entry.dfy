/** The `ReportEntry` tree that collectors produce and renderers consume
    (the revision with `Concat`, used by src/format and src/collector.rs). */
module Entries {
  import opened Wrappers

  datatype ReportEntry =
    | Text(content: string)
    | Code(language: Option<string>, code: string)
    | List(entries: seq<ReportEntry>)
    | Concat(entries: seq<ReportEntry>)

  /** No `Code` node anywhere in the tree. */
  predicate CodeFree(e: ReportEntry) {
    match e
    case Text(_) => true
    case Code(_, _) => false
    case List(es) => forall i :: 0 <= i < |es| ==> CodeFree(es[i])
    case Concat(es) => forall i :: 0 <= i < |es| ==> CodeFree(es[i])
  }
}
