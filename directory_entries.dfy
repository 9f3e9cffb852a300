/** The `DirectoryEntries` collector of src/collector/directory_entries.rs.
    The directory listing arrives as a parameter: the error that opening
    the directory gave, or one item per directory entry, each the entry
    (its name and, when readable, its metadata) or the error text of the
    failed iteration step. The platform's path separator is `separator`. */
module DirEntries {
  import opened Wrappers
  import opened Entries
  import opened Strings
  import opened Sorting
  import Collector
  import Markdown

  /** What `DirEntry::metadata` says of an entry (without following links). */
  datatype FileType = RegularFile(len: nat) | Directory | OtherFileType

  datatype DirEntry = DirEntry(fileName: string, metadata: Option<FileType>)

  datatype IoErrorKind = NotFound | OtherError

  /** An I/O error: its kind, and its `Display` text. */
  datatype IoError = IoError(kind: IoErrorKind, message: string)

  type Listing = Result<seq<Result<DirEntry, string>>, IoError>

  /** `read_dir_error_to_report_entry`: a missing directory is reported as
      not found, any other failure with the error text. */
  function ReadDirError(error: IoError, pathStr: string): (e: Collector.CollectionError)
    ensures error.kind == NotFound ==> e == Collector.CouldNotRetrieve("'" + pathStr + "' not found")
    ensures error.kind != NotFound ==> e == Collector.CouldNotRetrieve("'" + pathStr + "' not read: " + error.message)
  {
    Collector.CouldNotRetrieve(
      if error.kind == NotFound then "'" + pathStr + "' not found"
      else "'" + pathStr + "' not read: " + error.message)
  }

  /** `dir_entry_to_report_entry`: the name, then the size of a regular
      file or the separator after a directory. */
  function EntryText(entry: DirEntry, separator: char): string {
    var text := entry.fileName;
    match entry.metadata
    case Some(RegularFile(len)) => text + ", " + NatToString(len) + " bytes"
    case Some(Directory) => text + [separator]
    case _ => text
  }

  /** The string for one item of the iteration. */
  function ItemText(item: Result<DirEntry, string>, separator: char): string {
    match item
    case Ok(entry) => EntryText(entry, separator)
    case Err(e) => "Error: " + e
  }

  function ItemTexts(items: seq<Result<DirEntry, string>>, separator: char): (texts: seq<string>)
    ensures |texts| == |items|
    ensures forall i :: 0 <= i < |items| ==> texts[i] == ItemText(items[i], separator)
  {
    seq(|items|, i requires 0 <= i < |items| => ItemText(items[i], separator))
  }

  /** Each string as a `Text` entry. */
  function Texts(strings: seq<string>): (es: seq<ReportEntry>)
    ensures |es| == |strings|
    ensures forall i :: 0 <= i < |strings| ==> es[i] == Text(strings[i])
  {
    seq(|strings|, i requires 0 <= i < |strings| => Text(strings[i]))
  }

  datatype DirectoryEntries = DirectoryEntries(title: string, path: string) {

    static function New(title: string, path: string): (d: DirectoryEntries)
      ensures d.Description() == title && d.path == path
    {
      DirectoryEntries(title, path)
    }

    function Description(): string { title }

    /** What `collect` returns, as a function of the listing. */
    function Outcome(listing: Listing, separator: char): Result<ReportEntry, Collector.CollectionError> {
      match listing
      case Err(e) => Err(ReadDirError(e, path))
      case Ok(items) =>
        var entries := InsertionSort(ItemTexts(items, separator));
        if entries == [] then Ok(Text("'" + path + "' is empty"))
        else Ok(List(Texts(entries)))
    }

    /** `collect` as written: render every item into a vector, sort the
        vector in place, then wrap it. */
    method Collect(listing: Listing, separator: char) returns (r: Result<ReportEntry, Collector.CollectionError>)
      ensures r == Outcome(listing, separator)
    {
      if listing.Err? {
        return Err(ReadDirError(listing.error, path));
      }
      var items := listing.value;
      var entries := new string[|items|];
      for i := 0 to |items|
        invariant entries[..i] == ItemTexts(items, separator)[..i]
      {
        entries[i] := ItemText(items[i], separator);
      }
      assert entries[..] == ItemTexts(items, separator);
      SortInPlace(entries);
      InsertionSortSorted(ItemTexts(items, separator));
      SortedUnique(entries[..], InsertionSort(ItemTexts(items, separator)));
      if entries.Length == 0 {
        r := Ok(Text("'" + path + "' is empty"));
      } else {
        r := Ok(List(Texts(entries[..])));
      }
    }
  }

  /** A readable directory yields one `Text` per item, in sorted order, and
      nothing else; an empty one yields the single "is empty" line instead of
      an empty list. Failed iteration steps stay in the list as "Error: "
      lines. */
  lemma ListingShape(d: DirectoryEntries, items: seq<Result<DirEntry, string>>, separator: char)
    ensures var r := d.Outcome(Ok(items), separator);
      && r.Ok?
      && (items == [] ==> r.value == Text("'" + d.path + "' is empty"))
      && (items != [] ==>
            && r.value.List?
            && |r.value.entries| == |items|
            && (forall i :: 0 <= i < |items| ==> r.value.entries[i].Text?)
            && (var shown := seq(|items|, i requires 0 <= i < |items| => r.value.entries[i].content);
                && Sorted(shown)
                && multiset(shown) == multiset(ItemTexts(items, separator))))
  {
    var texts := ItemTexts(items, separator);
    var entries := InsertionSort(texts);
    InsertionSortSorted(texts);
    assert |entries| == |texts| by {
      assert |multiset(entries)| == |multiset(texts)|;
    }
    if items != [] {
      var r := d.Outcome(Ok(items), separator);
      assert r.value == List(Texts(entries));
      var shown := seq(|items|, i requires 0 <= i < |items| => r.value.entries[i].content);
      assert forall i :: 0 <= i < |items| ==> shown[i] == entries[i];
      assert shown == entries;
    }
  }

  /** Opening errors: a missing directory reports "not found", any other
      failure the error text. */
  lemma OpenErrors(d: DirectoryEntries, message: string, separator: char)
    ensures d.Outcome(Err(IoError(NotFound, message)), separator)
         == Err(Collector.CouldNotRetrieve("'" + d.path + "' not found"))
    ensures d.Outcome(Err(IoError(OtherError, message)), separator)
         == Err(Collector.CouldNotRetrieve("'" + d.path + "' not read: " + message))
  {
  }

  /** A regular file shows its size, a directory the separator, anything
      else (or an entry whose metadata cannot be read) just its name. */
  lemma EntryTextCases(name: string, separator: char, len: nat)
    ensures EntryText(DirEntry(name, Some(RegularFile(len))), separator) == name + ", " + NatToString(len) + " bytes"
    ensures EntryText(DirEntry(name, Some(Directory)), separator) == name + [separator]
    ensures EntryText(DirEntry(name, Some(OtherFileType)), separator) == name
    ensures EntryText(DirEntry(name, None), separator) == name
  {
  }

  /** A directory with a 14-byte file and a subdirectory, in whichever
      order the system lists them, yields the two lines of the test. */
  lemma FileAndDirExample(d: DirectoryEntries)
    ensures var file := Ok(DirEntry("file.txt", Some(RegularFile(14))));
      var dir := Ok(DirEntry("some_dir", Some(Directory)));
      var expected := Ok(List([Text("file.txt, 14 bytes"), Text("some_dir/")]));
      && d.Outcome(Ok([file, dir]), '/') == expected
      && d.Outcome(Ok([dir, file]), '/') == expected
  {
    var file := Ok(DirEntry("file.txt", Some(RegularFile(14))));
    var dir := Ok(DirEntry("some_dir", Some(Directory)));
    var a, b := "file.txt, 14 bytes", "some_dir/";
    ExampleTexts();
    assert ItemTexts([file, dir], '/') == [a, b];
    assert ItemTexts([dir, file], '/') == [b, a];
    ExampleSort();
    assert Texts([a, b]) == [Text(a), Text(b)];
  }

  lemma ExampleTexts()
    ensures ItemText(Ok(DirEntry("file.txt", Some(RegularFile(14)))), '/') == "file.txt, 14 bytes"
    ensures ItemText(Ok(DirEntry("some_dir", Some(Directory))), '/') == "some_dir/"
  {
    assert NatToString(14) == "14" by {
      assert NatToString(1) == "1";
    }
  }

  lemma ExampleSort()
    ensures InsertionSort(["file.txt, 14 bytes", "some_dir/"]) == ["file.txt, 14 bytes", "some_dir/"]
    ensures InsertionSort(["some_dir/", "file.txt, 14 bytes"]) == ["file.txt, 14 bytes", "some_dir/"]
  {
    var a, b := "file.txt, 14 bytes", "some_dir/";
    assert a[0] == 'f' && b[0] == 's';
    assert LexLe(a, b) && !LexLe(b, a);
    assert [a, b][1..] == [b];
    assert [b, a][1..] == [a];
    assert [a][1..] == [] && [b][1..] == [];
    assert InsertionSort([b]) == Insert(b, []) == [b];
    assert InsertionSort([a]) == Insert(a, []) == [a];
    assert Insert(a, [b]) == [a, b];
    assert Insert(b, [a]) == [a] + Insert(b, []);
  }

  /** The section of the missing-directory test, in the Markdown format:
      the error's reason becomes the section's text. */
  lemma NotFoundMarkdownExample(message: string)
    ensures var d := DirectoryEntries.New("No dir", "this-dir-does-not-exist");
      var r := d.Outcome(Err(IoError(NotFound, message)), '/');
      r.Err? && Markdown.Section(d.Description()) + Markdown.Entry(r.error.ToEntry())
             == "#### No dir\n\n" + "'this-dir-does-not-exist' not found\n"
  {
    NotFoundReason(message);
    NotFoundSection();
  }

  /** A missing directory's reason names the path and says "not found". */
  lemma NotFoundReason(message: string)
    ensures DirectoryEntries("No dir", "this-dir-does-not-exist").Outcome(Err(IoError(NotFound, message)), '/')
         == Err(Collector.CouldNotRetrieve("'this-dir-does-not-exist' not found"))
  {
    var path := "this-dir-does-not-exist";
    assert ReadDirError(IoError(NotFound, message), path).reason == "'" + path + "' not found";
    assert "'" + path + "' not found" == "'this-dir-does-not-exist' not found";
  }

  /** The heading of the section, followed by the reason as a text line. */
  lemma NotFoundSection()
    ensures Markdown.Section("No dir") + Markdown.Entry(Text("'this-dir-does-not-exist' not found"))
         == "#### No dir\n\n" + "'this-dir-does-not-exist' not found\n"
  {
    assert Markdown.Section("No dir") == "#### " + "No dir" + "\n\n";
    assert "#### " + "No dir" + "\n\n" == "#### No dir\n\n";
    assert "'this-dir-does-not-exist' not found" + "\n" == "'this-dir-does-not-exist' not found\n";
  }

  /** The section of the file-and-directory test, in the Markdown format. */
  lemma FileAndDirMarkdownExample()
    ensures Markdown.Section("File and dir") + Markdown.Entry(List([Text("file.txt, 14 bytes"), Text("some_dir/")]))
         == "#### File and dir\n\n" + "- file.txt, 14 bytes\n- some_dir/\n"
  {
    FileAndDirBody();
    assert Markdown.Section("File and dir") == "#### " + "File and dir" + "\n\n";
    assert "#### " + "File and dir" + "\n\n" == "#### File and dir\n\n";
  }

  /** The two entries render as two bullets, in listing order. */
  lemma FileAndDirBody()
    ensures Markdown.Entry(List([Text("file.txt, 14 bytes"), Text("some_dir/")]))
         == "- file.txt, 14 bytes\n- some_dir/\n"
  {
    var es := [Text("file.txt, 14 bytes"), Text("some_dir/")];
    assert es[1..] == [Text("some_dir/")];
    assert es[1..][1..] == [];
    assert Markdown.Entry(List(es)) == "- " + ("file.txt, 14 bytes" + "\n") + ("- " + ("some_dir/" + "\n") + "");
    assert "- " + ("file.txt, 14 bytes" + "\n") == "- file.txt, 14 bytes\n";
    assert "- " + ("some_dir/" + "\n") + "" == "- some_dir/\n";
  }
}
