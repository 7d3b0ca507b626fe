# xvalidatr, modelled in Dafny

xvalidatr is a command line tool. It validates XML files against an XML
Schema (XSD). It is given a schema and some files, directories or wildcards.
It then:

1. reads the schema's target namespace;
2. locates and reads the schema itself;
3. registers the schema with a validating reader;
4. validates each XML file, printing every diagnostic the XML library
   raises;
5. prints a summary and exits with the number of non-valid files.

This project models the bookkeeping around the .NET XML library:

- the `Validator` class with its flags and counters (Validator.cs, and its
  earlier version in xvalidatr.cs);
- the rule that resolves the schema argument;
- `Main`'s dispatch on the arguments;
- the expansion of the arguments into XML paths (`GetAllFiles` in
  Program.cs, `getAllFiles` in xvalidatr.cs).

Module by module:

- **Platform**: the file system and the XML library, as fixed oracles.
  - `FileSystem` holds:
    - the sets of existing files, existing directories, and the paths
      `new FileInfo` rejects;
    - `FileInfo.FullName` and `FileInfo.Extension`;
    - the recursive `*.xml` enumeration and the top-level listing of a
      directory;
    - the matches of a wildcard.
  - `XmlLibrary` holds:
    - the `targetNamespace` probe;
    - `XmlSchema.Read`;
    - `Schemas.Add`;
    - the validating load of one document. A load is its diagnostics in
      the order the library raises them, then possibly an exception.
  - `Environment.Exit(code)` and an exception nobody catches both become a
    `Halt` (`Exited(code)` or `Crashed`).
- **Output**: standard output as a `Console` object holding a sequence of
  `Line`s. A line records which message was printed and the values it
  carries.
- **Verdict**: what validating documents means, as functions, independent
  of the class:
  - the per-document flag, `Flagged`;
  - the lines printed for a document, `FileLines`;
  - the tally, `Tally` and `BatchTally`;
  - the lines printed for a batch, `BatchLines`;
  - the summary, `Summary`.
- **Schema**: the constructor's schema phase as functions, one per try
  block: `ExtractNamespace`, `Locate` (with `MatchRule`), `ReadSchema` and
  the whole phase, `Setup`.
- **Validation**: the `Validator` class. Every method updates the fields
  the C# method updates and is proved against the Verdict and Schema
  functions.
- **App**: Program.cs.
  - `Behaviour` is what a run prints and how it ends.
  - `Run` is `Main` over a fresh console. It is proved to produce exactly
    `Behaviour`.
  - `GetAllFiles` copies the arguments into an array and expands them with
    nested loops. It is proved to compute `Expand` and `Unfound`.
- **Draft**: xvalidatr.cs. Its `Validator` class runs the same steps as
  the one in Validation, so Validation's class stands for both. Its
  constructor has no null check, and its `validateSchema` returns `_error`
  but the constructor discards it. Its `createXmlReaderSettings`
  (xvalidatr.cs:100-107) does not set `ProcessInlineSchema`, which
  Validator.cs:100 does. So the `XmlLibrary` a draft run is given stands
  for the library as seen through the draft's reader, and it may load a
  document with an inline schema differently from the newer version's.
  Draft models:
  - its `Main`, which has no options;
  - its `getAllFiles`, which lists a directory's top level only and
    expands anything else as a wildcard.

In two places the code does not do what it evidently sets out to do. This
model follows the code as written in both:

- **Warning-only files.** Both versions count a file valid in a separate
  branch when only a warning was raised: `else if (_warning)` at
  Validator.cs:210-211 and xvalidatr.cs:214-216. But the validation
  handler sets `_error` before it looks at the severity
  (Validator.cs:117-118), and nothing ever sets `_warning`. So any
  diagnostic makes the file non-valid (`Verdict.Flagged`), and the
  warning branch never runs.
- **Wildcard schema arguments.** `ValidateSchema` takes a path that
  `FileInfo` rejects for a wildcard and resolves it (the comment at
  Validator.cs:48 says so). But the constructor calls `GetNameSpace` before
  `ValidateSchema`. `GetNameSpace` builds a `FileInfo` outside its try
  block, and that try block only catches `XmlException`. So an argument
  `FileInfo` rejects ends the process there, and a missing one exits
  with 2. `ValidateSchema`'s wildcard branch is therefore unreachable.
  It is modelled as written (`Schema.Locate`, `Validation.Validator.LocateSchema`),
  and `Schema.WildcardBranchUnreachable` proves it cannot run.

## Model

| member | source | states |
|---|---|---|
| Validation.Validator.constructor | Validator.cs:22-27 | Without a schema nothing is printed and nothing halts. With one, the console gains exactly the schema phase's lines (`Setup`), the process halts as that phase does, and otherwise `_pathSchema`, `_nameSpace` and `_error` are the schema read, its namespace and whether it raised a diagnostic; counters start at zero and `_warning` is clear |
| Validation.Validator.Resolve | Validator.cs:24-26 | GetNameSpace then ValidateSchema: the lines, halt and fields are those of the `Setup` function for the argument |
| Validation.Validator.GetNameSpace | Validator.cs:138-165 | Returns and prints exactly what `ExtractNamespace` gives: crash on a path `FileInfo` rejects, exit 2 for a missing file, exit 3 for a schema that is not well-formed, else the `targetNamespace` attribute or "" |
| Validation.Validator.ValidateSchema | Validator.cs:32-93 | A halted lookup leaves `_pathSchema` and `_error` alone and halts with its code; otherwise `_pathSchema` becomes the located file, `_error` records any schema diagnostic, the process halts with 3 exactly when reading throws, and the lines are `Locate`'s then `ReadSchema`'s |
| Validation.Validator.LocateSchema | Validator.cs:33-71 | The first try block: prints and halts as `Locate` says; on success `_pathSchema` is the single wildcard match or the path itself, and the file shown is that match or the full name |
| Validation.Validator.ReadSchemaFile | Validator.cs:73-92 | The second try block: prints the file, the diagnostics, then "Schema error(s)." or "OK", or on an exception its message and halt 3; `_error` ends raised exactly when it was or a diagnostic arrived |
| Validation.Validator.EchoSchema | Validator.cs:74-75 | Shows the schema file, then the handler's echo of every diagnostic `XmlSchema.Read` raises, in order, raising `_error` iff there was one |
| Validation.Validator.CreateXmlReaderSettings | Validator.cs:95-111 | Registering the schema prints nothing on success, an error line when it is rejected (and carries on), and an error line and halt 3 when it is malformed |
| Validation.Validator.ValidationCallback | Validator.cs:116-131 | `_error` is raised for every diagnostic, whatever its severity; a blank line precedes it only if `_error` was clear; then the diagnostic line |
| Validation.Validator.Deliver | Validator.cs:116-118 | Handing diagnostics to the handler one by one raises `_error` iff it was raised or there was at least one, and prints exactly `Echo`: one blank line before the first only if `_error` was clear, then one line per diagnostic in order |
| Validation.Validator.ValidateXmlFiles | Validator.cs:173-182 | Prints the heading and registers the schema; a malformed schema halts with 3 leaving the counters alone; otherwise the counters grow by `BatchTally` and the lines are `BatchLines` of the paths |
| Validation.Validator.ValidateEach | Validator.cs:177-181 | The foreach loop: counters grow by `BatchTally` of the paths and the console gains `BatchLines`, path by path in the order given, keeping `_warning` clear and the counters non-negative |
| Validation.Validator.Visit | Validator.cs:178-180 | A path that does not exist leaves counters and console alone; an existing one is validated (`Bump`, `FileLines`) |
| Validation.Validator.ValidateXmlFile | Validator.cs:186-217 | `_error` ends equal to whether the document had a diagnostic or threw, whatever it was before (the flags are reset first); exactly one counter grows, by one: non-valid iff flagged; the console gains exactly `FileLines` |
| Validation.Validator.PrintReport | Validator.cs:223-236 | Returns `_nonValidXmlCpt`, changes no counter, and prints exactly `Summary` of the counters |
| Verdict.EchoStep | Validator.cs:116-118 | One more diagnostic extends the echo by a blank line only when it is the first and `_error` was clear, then by its own line |
| Verdict.EchoLines | Validator.cs:116-130 | The handler prints only blank and diagnostic lines, and a line for every diagnostic |
| Verdict.EchoBlanks | Validator.cs:117 | The echo holds exactly one blank line when diagnostics start with `_error` clear, none otherwise |
| Verdict.OkExactlyWhenClean | Validator.cs:207-216 | "OK" appears in a document's lines iff it had no diagnostic and no exception, and then exactly once |
| Verdict.BlankBeforeFirstDiagnostic | Validator.cs:116-118 | A document's lines hold one blank line iff it had a diagnostic, placed right after the path and right before the first diagnostic; later diagnostics add none |
| Verdict.EveryIssueReported | Validator.cs:189-205 | Every diagnostic of a document is printed, and so is the exception that ended its load |
| Verdict.Tally | Validator.cs:207-216 | The counters over a run of documents add up to the number of documents |
| Verdict.TallyAppend | Validator.cs:177-181 | Tallying two runs one after the other adds their counters |
| Verdict.TallyZero | Validator.cs:207-216 | The non-valid counter is 0 iff no document was flagged; the valid one iff every document was |
| Verdict.Opened | Validator.cs:177-181 | The documents opened are exactly the given paths that exist, no more of them than paths |
| Verdict.OpenedAppend | Validator.cs:177-181 | Paths are opened in order: the opened documents of a concatenation are the concatenation of each part's |
| Verdict.BatchTallyIsTally | Validator.cs:177-181 | The path-by-path counters equal the tally of just the opened documents: a missing path changes no counter |
| Verdict.BatchTallyTotal | Validator.cs:177-181 | The counters a batch adds sum to the number of documents actually opened |
| Verdict.BatchClean | Validator.cs:177-181 | A batch's non-valid counter is that of the opened documents, and is 0 iff every opened document is clean |
| Verdict.BatchAgree | Validator.cs:177-181 | Two libraries that load every existing document alike give the same counters and the same lines for any batch |
| Verdict.Summary | Validator.cs:223-236 | The summary starts with its heading; "not found" appears iff the total is 0; the processed line shows the total iff it is positive; each count line appears iff its count is positive, with that count |
| Schema.MatchRule | Validator.cs:54-70 | A wildcard is adopted iff it has exactly one match, and then the match is that one file; otherwise exit 2 |
| Schema.ExtractNamespace | Validator.cs:138-165 | Crash iff `FileInfo` rejects the path, exit 2 iff the file is missing, exit 3 iff it is not well-formed; otherwise a `targetNamespace` attribute with value v gives exactly v, no attribute gives "", the namespace is "" iff the attribute is absent or empty, and the namespace line is printed |
| Schema.Locate | Validator.cs:36-71 | A rejected path succeeds iff its wildcard has one match, which is then used; any other path succeeds iff the file exists, and is used as given; failures exit 2; the ambiguity message appears iff there were several matches |
| Schema.ReadSchema | Validator.cs:73-92 | Halts iff reading throws, always with 3; otherwise the result is whether `_error` was raised or a diagnostic arrived, and "OK" is printed iff it is not |
| Schema.SetupOutcome | Validator.cs:22-27 | The schema phase crashes iff `FileInfo` rejects the argument, exits 2 iff the file is missing, exits 3 iff the schema is not well-formed or cannot be read, and otherwise adopts the argument itself |
| Schema.WildcardBranchUnreachable | Validator.cs:24-26 | Because GetNameSpace runs first, no ambiguity message is ever printed and the schema adopted is always the argument itself |
| App.Dispatch | Program.cs:85-102 | No argument gives usage with 1; "-h"/"--help" usage with 0; "-v"/"--version" the version; the schema path with the rest as inputs exactly when there is an argument that is neither option (each iff) |
| App.GetAllFiles | Program.cs:33-54 | Copies `args[1..]` into an array and returns exactly `Expand` of them (each argument's contribution, in argument order) and the not-found lines `Unfound` |
| App.CollectMembers | Program.cs:37-51 | For any contribution of the arguments, a path is collected iff some argument contributes it |
| App.MissingExactly | Program.cs:37-51 | For any contribution of the arguments, an argument is reported not found iff it contributes nothing, and only such reports are made |
| App.CollectEmpty | Program.cs:37-51 | Nothing is collected iff no argument contributes anything |
| App.CollectAgree | Program.cs:37-51 | Two contributions that agree on every argument collect and report the same |
| App.ExpandMembers | Program.cs:37-53 | A path is collected iff some argument contributes it: the full name of an existing file, or a `*.xml` file under an existing directory |
| App.UnfoundExactly | Program.cs:37-51 | An argument is reported not found iff it is an argument that is neither an existing file nor a directory with at least one XML file; nothing else is reported |
| App.Run | Program.cs:82-117 | What Main prints and its exit code are exactly `Behaviour`: usage or version for the options, otherwise About, the schema phase and, with inputs, their validation and the report |
| App.Launch | Program.cs:104-116 | From the constructor on: halts as the schema phase does, returns 0 with the schema alone, otherwise expands, validates and reports as `Checked` says |
| App.Proceed | Program.cs:110-116 | Prints the not-found lines, validates the files or prints "No XML files found.", then the report; the exit code is `PrintReport`'s unless registration halted with 3 |
| App.ExitCodeCountsNonValid | Program.cs:105-116 | Once the schema is accepted and registered, the exit code is the number of opened documents that were flagged, so it is 0 iff every opened document is clean |
| App.ValidatedExit | Program.cs:110-116 | After a registered schema the exit code is the batch's non-valid counter, also when no file was found |
| App.SchemaOnly | Program.cs:104-107 | With the schema as the only argument, the run prints About and the schema phase and exits 0 unless that phase halted |
| App.OptionsTakePrecedence | Program.cs:91-102 | "-h"/"--help" and "-v"/"--version" exit 0, and the run is the same whatever follows and whatever the file system and XML library hold |
| App.NothingFound | Program.cs:110-116 | When no input stands for any XML file, every input is reported not found, "No XML files found." and "XML file(s) or XML directory not found." are printed, and the exit code is 0 |
| App.EmptyExpansion | Program.cs:37-51 | When the arguments expand to nothing, each of them is reported not found |
| Draft.XmlListingEmpty | xvalidatr.cs:289-297 | A directory contributes nothing iff none of its top-level files has the extension ".xml" exactly |
| Draft.XmlListingMembers | xvalidatr.cs:289-297 | A path is among a directory's XML files iff it is the full name of a top-level file whose extension is ".xml" exactly |
| Draft.GetAllFiles | xvalidatr.cs:272-320 | Copies `args[1..]` into an array and returns exactly `Expand` (a file's full name, a directory's top-level ".xml" files, or every match of a wildcard, in argument order) and the not-found lines |
| Draft.ExpandMembers | xvalidatr.cs:282-318 | A path is collected iff some argument stands for it: the full name of an existing file, of a ".xml" file directly in a directory argument, or a match of a wildcard argument |
| Draft.UnfoundExactly | xvalidatr.cs:282-318 | An argument is reported not found iff it is not an existing file and is either a directory with no ".xml" file at its top level or a wildcard with no match |
| Draft.Run | xvalidatr.cs:335-354 | What the earlier Main prints and its exit code are exactly `Draft.Behaviour`: About always; no argument gives usage and 1; otherwise the schema phase, then with inputs their validation and the report |
| Draft.Launch | xvalidatr.cs:341-353 | From the constructor on: halts as the schema phase does, returns 0 with the schema alone, otherwise expands, validates and reports as `Draft.Checked` says |
| Draft.NoOptions | xvalidatr.cs:335-341 | The earlier version has no options: any first argument, "-h" included, starts the schema phase right after About |
| Draft.VersionsAgreeOnFiles | xvalidatr.cs:335-354 | On runs without an option whose inputs are all existing files, given libraries that differ at most in how they load documents and load every existing document alike, both versions print the same lines and end the same way |
| Draft.SameExpansion | xvalidatr.cs:284-288 | Both versions expand existing-file arguments identically |

## Left out

- ColorConsole.cs is not part of this model: colours, centring on the
  window width and the split of a line into `Write` calls. Wording is left
  out too: a `Line` records which message was printed and its values.
- The XML library and the file system are oracles, not implementations.
  This covers XPath, `XmlSchema.Read`, `Schemas.Add`, `XmlDocument.Load`,
  `FileInfo`, `Directory.EnumerateFiles`/`GetFiles`,
  `Path.GetDirectoryName`/`GetFullPath` and wildcard matching. The
  oracles are fixed for a run and assumed not to throw outside the catch
  blocks the code has.
- `Directory.EnumerateFiles` or `GetFiles` throwing during the expansion
  is not modelled; in the code such an exception is not caught and ends
  the process. The common case is in the draft: a wildcard argument whose
  directory part does not exist (such as `nodir/a.xml`) makes
  `Directory.GetFiles` (xvalidatr.cs:307) throw
  `DirectoryNotFoundException`. `Draft.Contribution` takes that argument's
  matches to be empty, so the model reports it as not found instead.
  An unreadable directory in either version is another such case.
- `_settings` (the `XmlReaderSettings` object) is not a field. Its effect
  is folded into `XmlLibrary.load`: the outcome of loading a document
  through the reader configured with the run's schema, with warnings
  reported and, in Program.cs's version, inline schemas processed
  (Validator.cs:100).
- Validation.Validator.ValidateXmlFile: the counters are unbounded
  integers. The C# `int` counters would wrap after 2^31 files.
- App.Run: the exit code is the `int` `Main` returns. How the operating
  system narrows it (for example to 8 bits) is not modelled.
- Assembly metadata is left out: the title, version and copyright in
  `About`, `Usage` and "-v", and the `null` title or version those cases
  handle. `Banner`, `UsageText` and `VersionText` stand for the whole
  text. In Program.cs a missing version prints nothing for "-v". In
  xvalidatr.cs a missing version or copyright makes `About` throw. Neither
  case is modelled.
- The earlier `Validator` class (xvalidatr.cs:15-243) is not modelled
  separately. Its fields, handler, `validateXmlFile`, `validateXmlFiles`,
  `printReport` and `getNameSpace` run the same steps as Validation's.
  The `_error` that `validateSchema` returns is discarded by its only
  caller. Its reader settings differ in one flag, `ProcessInlineSchema`,
  whose effect lies inside the library's `load` (see
  `Draft.VersionsAgreeOnFiles` below).
- Draft.VersionsAgreeOnFiles: the two versions are proved to agree only
  when their libraries load every existing document alike. They differ in
  whether `ProcessInlineSchema` is set (Validator.cs:100, absent from
  xvalidatr.cs:100-107), so on a document that carries an inline schema
  the loads, and with them the verdicts, may differ.
- Diagnostics carry severity, line and position but not the message
  text. Exceptions carry their type but not their message.
