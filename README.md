# bugreport, modelled in Dafny

bugreport is a Rust library that gathers facts about the running program
(version, compile-time target, command line, environment variables, the
output of commands, file contents, directory listings, the operating
system) and renders them as a Markdown or plain-text bug report. This
project models:

- the `ReportEntry` tree (`Text`, `Code`, `List`, `Concat`) and the two
  renderers that turn it into text, Markdown and Plaintext, together with
  the older Markdown renderer of `src/report.rs`;
- the string-building logic of every built-in collector in
  `src/collector.rs`, the differences of its earlier revision
  `src/collectors.rs`, and the `DirectoryEntries` collector;
- the `trim_end_inplace` helper;
- the first report builder of `src/lib.rs` (`new`, `add`, `generate`) and
  its three string-valued collectors.

Each renderer or collector that loops over a string in the source is a
Dafny `method` with the loop. Its `ensures` ties the result to a recursive
specification function, and lemmas state the properties of that function.
Everything a collector reads from the system is a parameter: the argument
vector, the environment table, the spawn result and output of a process,
the contents of a file, the directory listing, the answers of the
operating-system queries and the build-time constants. The shell-quoting
libraries are the uninterpreted parameter `escape`.

Modules: `Wrappers` (Option, Result), `Strings` (decimal rendering),
`Helper`, `Entries` (the tree), `Markdown`, `Plaintext`, `Format` (the
format trait, closed over its two implementations), `Report` (the older
renderer), `Collector`, `LegacyCollectors`, `Sorting` (the `sort` on
strings), `DirEntries`, `BugReport` (src/lib.rs).

## Model

| member | source | states |
|---|---|---|
| Helper.TrimEnd | src/helper.rs:6-8 | the trimmed string is a prefix of the original; everything removed is whitespace; the result is empty or ends in a non-whitespace character |
| Helper.TrimEndInPlace | src/helper.rs:6-8 | scanning back over trailing whitespace and truncating gives exactly `TrimEnd` |
| Helper.TrimEndUnique | src/helper.rs:7 | a prefix that does not end in whitespace, followed by any all-whitespace tail, trims back to that prefix, so the three properties of `TrimEnd` determine it |
| Helper.TrimEndIdempotent | src/helper.rs:6-8 | trimming twice is trimming once |
| Helper.TrimEndAllWhitespace | src/helper.rs:7 | an all-whitespace string trims to the empty string |
| Helper.TrimEndExample | src/helper.rs:11-17 | "test string \n\n" trims to "test string" |
| Strings.NatToString | src/collector/directory_entries.rs:84 | a file size is written as a non-empty run of decimal digits without a leading zero |
| Strings.NatToStringRoundTrip | src/collector/directory_entries.rs:84 | reading the written digits back gives the number |
| Markdown.Section | src/format/markdown.rs:8-10 | the heading is "#### ", then the title unchanged, then "\n\n", and nothing else |
| Markdown.FormatEntry | src/format/markdown.rs:12-38 | the loops over list and concat children produce exactly the recursive rendering `Entry` |
| Markdown.ItemsAppend | src/format/markdown.rs:22-29 | the bullets of `a + b` are the bullets of `a` followed by those of `b` |
| Markdown.JoinedAppend | src/format/markdown.rs:30-36 | the concatenation of `a + b` is that of `a` followed by that of `b`, with nothing between |
| Markdown.ItemsSnoc | src/format/markdown.rs:22-29 | one more child adds "- " and its rendering at the end |
| Markdown.JoinedSnoc | src/format/markdown.rs:30-36 | one more child adds its rendering at the end |
| Markdown.EmptyContainers | src/format/markdown.rs:22-36 | an empty list and an empty concat render as "" |
| Markdown.ItemsAsBullets | src/format/markdown.rs:22-29 | child `i` of a list appears as "- " plus its rendering, between the bullets of the children before it and those after it |
| Plaintext.Dashes | src/format/plaintext.rs:9 | the fill is `n` dash characters |
| Plaintext.SectionShape | src/format/plaintext.rs:8-10 | `Plaintext.Section`: the heading has length max(48, \|title\|) + 1 and ends in "\n"; a title of 48 or more characters is unpadded; otherwise it is centred, with the right fill equal to the left fill or one longer |
| Plaintext.SectionExample | src/format/plaintext.rs:9 | "Software version" is centred between 16 dashes on each side |
| Plaintext.FormatEntry | src/format/plaintext.rs:12-34 | the loops produce exactly the recursive rendering `Entry` |
| Plaintext.ItemsSnoc | src/format/plaintext.rs:18-25 | one more list child adds "- " and its rendering at the end |
| Plaintext.JoinedSnoc | src/format/plaintext.rs:26-32 | one more concat child adds its rendering at the end |
| Plaintext.CodeDropsLanguage | src/format/plaintext.rs:17 | a code block renders as its code and a newline; the language tag never appears |
| Plaintext.AgreesWithMarkdown | src/format/plaintext.rs:12-34 | on every tree without a code block, Plaintext and Markdown render identically |
| Plaintext.ItemsAgree | src/format/plaintext.rs:18-25 | the two formats render code-free list children identically |
| Plaintext.JoinedAgree | src/format/plaintext.rs:26-32 | the two formats render code-free concat children identically |
| Format.FormatsAgreeWithoutCode | src/format/mod.rs:15-18 | through the format interface, the two formats are interchangeable on code-free trees |
| Report.ToMarkdownEntry | src/report.rs:21-40 | the older entry renderer's loop produces exactly `EntryMarkdown` |
| Report.ItemsSnoc | src/report.rs:31-38 | one more list child adds "- " and its rendering at the end |
| Report.MarkdownFormatAgrees | src/report.rs:21-40 | the older renderer agrees with the newer Markdown format on every tree of the older kind |
| Report.ItemsAgree | src/report.rs:31-38 | the two Markdown renderers agree on list children |
| Report.Report.ToMarkdown | src/report.rs:49-58 | the report loop produces exactly `ReportMarkdown`: "## " + title + "\n\n" + entry + "\n" per section, in order |
| Report.ReportMarkdownAppend | src/report.rs:49-58 | the report of `a + b` is the report of `a` followed by the report of `b`, so adding sections only appends text |
| Report.ReportMarkdownLength | src/report.rs:50-57 | the length of the report is the sum of its section blocks' lengths; a report with no sections is "" |
| Collector.ErrorEntryShowsReason | src/collector.rs:26-32 | `CollectionError.ToEntry`: a collection error becomes `Text(reason)`, which both formats render as the reason and a newline |
| Collector.Descriptions | src/collector.rs:56-172 | the five fixed collectors describe themselves as "Software version", "Compile time information", "Command-line", "Operating system" and "Environment variables" |
| Collector.SoftwareVersion.Collect | src/collector.rs:60-72 | always Ok: a text line of the package name, a space, the custom version or else the package version, then " (hash)" exactly when a revision is known |
| Collector.SoftwareVersionChoice | src/collector.rs:42-53 | `custom` replaces the package version; the default keeps it |
| Collector.CompileTimeInformation.Collect | src/collector.rs:84-111 | always Ok: a list of exactly nine text lines, line `i` being label `i` (Profile, Target triple, Family, OS, Architecture, Pointer width, Endian, CPU features, Host), ": " and build value `i` |
| Collector.EscapedWordsAppend | src/collector.rs:126-129 | the words of `a + b` are those of `a` then those of `b`: one escaped argument and one space per argument, in order |
| Collector.EscapedWordsSnoc | src/collector.rs:126-129 | one more argument adds its escaped form and one space at the end |
| Collector.AppendEscapedWords | src/collector.rs:126-129 | the argument loop appends exactly `EscapedWords` to what was there |
| Collector.CommandLine.Collect | src/collector.rs:123-135 | always Ok: a bash code block of every argument escaped and followed by one space, in order |
| Collector.EnvLines | src/collector.rs:177-187 | one line per listed name, in list order: `NAME=` and the escaped value, or `<not set>` when unset |
| Collector.TerminatedSnoc | src/collector.rs:182-187 | one more variable appends its line and a newline |
| Collector.TerminatedIsJoinedPlusNewline | src/collector.rs:189 | popping the last newline from newline-terminated lines leaves the lines joined by newlines |
| Collector.JoinLinesAppend | src/collector.rs:174-195 | joining `a + b` puts exactly one newline between the two groups |
| Collector.AppendEnvLine | src/collector.rs:182-187 | one turn of the loop appends the variable's line and a newline |
| Collector.EnvironmentVariables.Collect | src/collector.rs:174-195 | always Ok: a bash code block of the variables' lines joined by newlines, with no trailing newline |
| Collector.EnvironmentVariablesExamples | src/collector.rs:182-189 | a set variable shows its escaped value, an unset one `<not set>`, and an empty list gives empty code |
| Collector.CommandOutput.New | src/collector.rs:206-221 | the collector keeps its title as description, its command and its arguments |
| Collector.CommandOutput.Collect | src/collector.rs:229-284 | the method (header loop, append both streams, trim in place, push the note) computes exactly `Outcome` |
| Collector.CommandOutputCases | src/collector.rs:242-283 | Ok exactly when the command spawned and both streams are UTF-8; a spawn error names the command and the error; on Ok the result is a Concat of an untagged code block followed by a failure note exactly when the exit status is not success |
| Collector.FailureNoteText | src/collector.rs:273-281 | the note is "Command failed with exit code N." with a code, "Command failed." without |
| Collector.CommandOutputKeepsInvocation | src/collector.rs:263-266 | when the output has a non-whitespace character, trimming leaves the whole "> cmd args" header and removes only trailing whitespace of the output |
| Collector.FileContent.New | src/collector.rs:294-299 | the collector keeps its title as description and its path |
| Collector.FileContent.Collect | src/collector.rs:307-322 | Ok exactly when the read succeeds; an error reads "Could not read contents of '<path>': <e>."; the content is an untagged code block of the text with its trailing whitespace, and only that, removed |
| Collector.OperatingSystem.Collect | src/collector.rs:149-153 | always Ok: the long OS version, or "Unknown" without one |
| LegacyCollectors.SoftwareVersion.Collect | src/collectors.rs:63-69 | always Ok: the package name, a space, and the custom version or else the package version |
| LegacyCollectors.RevisionSuffixIsTheOnlyChange | src/collectors.rs:63-69 | the later revision's line equals the earlier one, plus " (hash)" exactly when a revision is known |
| LegacyCollectors.Descriptions | src/collectors.rs:59-157 | the earlier revision's version and OS collectors have the same descriptions as the later ones |
| LegacyCollectors.OperatingSystem.Collect | src/collectors.rs:159-168 | fails with "Operating system type" exactly when the type query fails; otherwise the type, a space and the release, or "(unknown version)" without one |
| Sorting.LexLeTotal | src/collector/directory_entries.rs:57 | any two strings are ordered one way or the other |
| Sorting.LexLeTransitive | src/collector/directory_entries.rs:57 | the string order is transitive |
| Sorting.LexLeAntisymmetric | src/collector/directory_entries.rs:57 | strings ordered both ways are equal |
| Sorting.Insert | src/collector/directory_entries.rs:57 | inserting adds exactly the element to the multiset |
| Sorting.InsertSorted | src/collector/directory_entries.rs:57 | inserting into a sorted sequence keeps it sorted |
| Sorting.InsertionSort | src/collector/directory_entries.rs:57 | the reference sort is a permutation of its input |
| Sorting.InsertionSortSorted | src/collector/directory_entries.rs:57 | the reference sort's result is sorted |
| Sorting.SortedUnique | src/collector/directory_entries.rs:57 | two sorted permutations of the same strings are equal, so any correct sort gives the reference result |
| Sorting.SortInPlace | src/collector/directory_entries.rs:57 | the in-place sort leaves the array sorted and a permutation of its old contents |
| Sorting.SinkLast | src/collector/directory_entries.rs:57 | moving the next element down extends the sorted prefix by one and permutes the array |
| Sorting.Swap | src/collector/directory_entries.rs:57 | exchanges two elements and leaves the others |
| DirEntries.ReadDirError | src/collector/directory_entries.rs:69-75 | a missing directory gives "'<path>' not found", any other error "'<path>' not read: <e>" |
| DirEntries.ItemTexts | src/collector/directory_entries.rs:50-53 | one string per item, in order: the entry's text, or "Error: <e>" for a failed step |
| DirEntries.Texts | src/collector/directory_entries.rs:61-64 | one `Text` entry per string, in order |
| DirEntries.DirectoryEntries.New | src/collector/directory_entries.rs:32-43 | `description` returns the title given to `new`; the path is kept |
| DirEntries.DirectoryEntries.Collect | src/collector/directory_entries.rs:45-66 | filling the vector, sorting it in place and wrapping it computes exactly `Outcome` |
| DirEntries.ListingShape | src/collector/directory_entries.rs:45-66 | a readable directory is always Ok; an empty one gives only "'<path>' is empty"; otherwise a list of one `Text` per item, sorted, and a permutation of the items' strings |
| DirEntries.OpenErrors | src/collector/directory_entries.rs:69-75 | opening failures give "not found" or "not read: <e>" |
| DirEntries.EntryTextCases | src/collector/directory_entries.rs:77-91 | `EntryText`: a regular file shows ", N bytes", a directory the separator, anything else or unreadable metadata just the name |
| DirEntries.FileAndDirExample | tests/test_collector_directory_entries.rs:48-85 | a 14-byte file and a subdirectory, listed in either order, give "file.txt, 14 bytes" then "some_dir/" |
| DirEntries.NotFoundReason | tests/test_collector_directory_entries.rs:10-23 | collecting a directory that is not found fails with "'this-dir-does-not-exist' not found", whatever the error message |
| DirEntries.NotFoundSection | src/format/markdown.rs:8-19 | that error's section heading and text entry render as "#### No dir\n\n'this-dir-does-not-exist' not found\n" |
| DirEntries.NotFoundMarkdownExample | tests/test_collector_directory_entries.rs:10-23 | the missing directory's section renders as "#### No dir\n\n'this-dir-does-not-exist' not found\n" |
| DirEntries.FileAndDirBody | src/format/markdown.rs:22-29 | the two-item list renders as one bullet line per item, in order |
| DirEntries.FileAndDirMarkdownExample | tests/test_collector_directory_entries.rs:63-82 | the file-and-directory section renders as "#### File and dir\n\n- file.txt, 14 bytes\n- some_dir/\n" |
| BugReport.StringCollector.Collect | src/lib.rs:68-119 | each first-revision collector returns what `Collected` says: the stored version verbatim, the quoted argument list, or the OS type and release; it is called only when `Collected` is not a panic |
| BugReport.Descriptions | src/lib.rs:69-114 | the three descriptions are "Software version", "Command-line arguments" and "Operating system" |
| BugReport.CollectedPanics | src/lib.rs:73-118 | the version collector never panics; the arguments collector panics exactly when an argument is not valid Unicode; the OS collector exactly when the type or the release query fails |
| BugReport.CollectArguments | src/lib.rs:91-100 | the argument loop yields "[" then "'arg', " per argument in order, then "]" |
| BugReport.QuotedArgsAppend | src/lib.rs:94-96 | the quoted list of `a + b` is that of `a` followed by that of `b` |
| BugReport.CommandLineArgumentsExample | src/lib.rs:91-100 | arguments "prog" and "-v" give "['prog', '-v', ]" |
| BugReport.AppendBlock | src/lib.rs:46-50 | one turn of the loop appends "## ", the description, "\n\n", the output and "\n\n" |
| BugReport.Report.constructor | src/lib.rs:33-35 | a new report has no collectors |
| BugReport.Report.Add | src/lib.rs:37-40 | the collector goes at the end and the earlier ones keep their order |
| BugReport.Report.Generate | src/lib.rs:42-53 | the result is the in-order concatenation of every collector's block, and every collector is called exactly once, in registration order |
| BugReport.GeneratedPrefix | src/lib.rs:45-50 | when the whole report generates, every prefix of it does, and no collector of the prefix panics |
| BugReport.GeneratedSomeIff | src/lib.rs:49 | generation panics exactly when one of the collectors does |
| BugReport.GeneratedAppend | src/lib.rs:37-53 | adding a collector appends exactly its block to the generated report, and generation then panics exactly when it did before or the new collector does |
| BugReport.BuilderExample | src/lib.rs:125-136 | a new report generates ""; after adding the OS and version collectors it generates their two blocks, in that order |

## Left out

- The `Format` trait is a closed datatype over its two formats, and the `Collector` trait of src/lib.rs is the closed datatype `BugReport.StringCollector` over its three collectors; user-defined implementations are not modelled.
- The `Collector` trait of src/collector.rs and src/collectors.rs has no common Dafny type: each built-in collector is its own datatype with a `Description` and a `Collect` that takes exactly the inputs that collector reads, so a report over a vector of boxed collectors with dynamic dispatch is not modelled for these two revisions.
- Process spawning, file reading, directory reading, entry metadata, the argument vector, the environment and the operating-system queries are parameters of the collectors. The system calls themselves are not modelled.
- `shell_escape::escape` and `snailquote::escape` are foreign libraries: both are the uninterpreted parameter `escape`, so the quoting rules of either are not modelled.
- `to_string_lossy` and UTF-8 decoding: strings are sequences of characters; a stream that is not valid UTF-8 is `None`, and so is an argument vector of src/lib.rs with a non-Unicode argument (where `std::env::args` panics); lossy replacement of argument or path bytes is not modelled.
- `env!` build constants and build.rs: the nine compile-time values are the fields of `BuildInfo`; that build.rs writes "unknown" for a missing variable is not modelled.
- `std::path::MAIN_SEPARATOR` is the parameter `separator`.
- `ExitStatus`: the exit code is `Option<int>`, None when the process was ended by a signal, and success is exit code 0, as on Unix.
- Helper.TrimEndInPlace: the in-place `truncate` is modelled as a method that returns the shortened string; the sharing of the buffer is not modelled.
- Collector.EnvironmentVariables.Collect: the string is built and popped locally, as in the source; a `writeln!` into a `String` cannot fail, so its ignored result is not modelled.
- BugReport.Report.Generate: a panicking `unwrap` is modelled by the precondition that generation does not panic (`Generated` is Some), with `None` in the specification standing for the panic; the second output `invoked`, a ghost trace of the calls, stands for the order of the `collect` calls.
- BugReport.StringCollector.Collect: the first-revision `Error` type is never produced by these three collectors, so `collect` is modelled as returning a string or panicking.
- `Report::info`, `format`, `print`, the `bugreport!` macro and the git-hash lookup are not part of this model; the golden test strings are checked against the section and entry renderers only, without the blank line the assembler adds after each section.
- Rendering is deterministic and free of side effects in the source; here every renderer is a function, so no separate lemma states that.
- Strings.IntToString: negative exit codes are written with a leading "-", as Rust's `{}` does; only its non-emptiness is stated.
