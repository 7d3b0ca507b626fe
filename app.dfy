/**
 * The command line front end, `App`: the dispatch on the first argument,
 * the expansion of the remaining arguments into XML file paths, and the
 * run that ties the validator's phases together into one exit code.
 */
module App {
  import opened Platform
  import opened Output
  import opened Verdict
  import opened Schema
  import opened Validation

  /** What Main does with its arguments before anything is validated. */
  datatype Command =
    | ShowUsage(code: int)                        // About, then Usage, then return code
    | ShowVersion                                 // "-v" / "--version"
    | Check(schema: Path, inputs: seq<Path>)      // args[0] is the schema, the rest are XML inputs

  predicate IsHelp(arg: string) {
    arg == "-h" || arg == "--help"
  }

  predicate IsVersion(arg: string) {
    arg == "-v" || arg == "--version"
  }

  /**
   * No argument shows the usage and fails with 1; "-h"/"--help" shows it
   * and succeeds; "-v"/"--version" shows the version; anything else is the
   * schema path, whatever it looks like, and the rest are the inputs.
   */
  function Dispatch(args: seq<string>): (c: Command)
    ensures c == ShowUsage(1) <==> |args| == 0
    ensures c == ShowUsage(0) <==> |args| > 0 && IsHelp(args[0])
    ensures c == ShowVersion <==> |args| > 0 && IsVersion(args[0])
    ensures c.Check? <==> |args| > 0 && !IsHelp(args[0]) && !IsVersion(args[0])
    ensures c.Check? ==> c.schema == args[0] && c.inputs == args[1..]
  {
    if |args| < 1 then ShowUsage(1)
    else if IsHelp(args[0]) then ShowUsage(0)
    else if IsVersion(args[0]) then ShowVersion
    else Check(args[0], args[1..])
  }

  /**
   * What the expansion loop of either version collects, given what each
   * argument contributes: the contributions, in argument order.
   */
  function Collect(contribute: Path -> seq<Path>, paths: seq<Path>): seq<Path> {
    if paths == [] then []
    else Collect(contribute, paths[..|paths| - 1]) + contribute(paths[|paths| - 1])
  }

  /** The "path not found or no XML found in path" lines: one per argument that contributes nothing, in order. */
  function Missing(contribute: Path -> seq<Path>, paths: seq<Path>): seq<Line> {
    if paths == [] then []
    else
      var last := paths[|paths| - 1];
      Missing(contribute, paths[..|paths| - 1]) + (if contribute(last) == [] then [PathNotFound(last)] else [])
  }

  /** The step of an expansion loop at index i. */
  lemma CollectStepAt(contribute: Path -> seq<Path>, paths: seq<Path>, i: nat)
    requires i < |paths|
    ensures Collect(contribute, paths[..i + 1]) == Collect(contribute, paths[..i]) + contribute(paths[i])
    ensures Missing(contribute, paths[..i + 1]) ==
      Missing(contribute, paths[..i]) + (if contribute(paths[i]) == [] then [PathNotFound(paths[i])] else [])
  {
    assert paths[..i + 1][..i] == paths[..i];
  }

  /**
   * Every collected path comes from some argument, and everything an
   * argument contributes is collected.
   */
  lemma {:induction false} CollectMembers(contribute: Path -> seq<Path>, paths: seq<Path>)
    ensures forall x :: x in Collect(contribute, paths) <==> exists k :: 0 <= k < |paths| && x in contribute(paths[k])
  {
    if paths != [] {
      var pre := paths[..|paths| - 1];
      CollectMembers(contribute, pre);
      forall x ensures x in Collect(contribute, paths) <==> exists k :: 0 <= k < |paths| && x in contribute(paths[k]) {
        if x in contribute(paths[|paths| - 1]) {
          assert 0 <= |paths| - 1 < |paths|;
        }
        if exists k :: 0 <= k < |pre| && x in contribute(pre[k]) {
          var k :| 0 <= k < |pre| && x in contribute(pre[k]);
          assert pre[k] == paths[k];
        }
        if exists k :: 0 <= k < |paths| && x in contribute(paths[k]) {
          var k :| 0 <= k < |paths| && x in contribute(paths[k]);
          if k < |pre| {
            assert pre[k] == paths[k];
          }
        }
      }
    }
  }

  /** Nothing is collected exactly when no argument contributes anything. */
  lemma {:induction false} CollectEmpty(contribute: Path -> seq<Path>, paths: seq<Path>)
    ensures Collect(contribute, paths) == [] <==> forall p :: p in paths ==> contribute(p) == []
  {
    if paths != [] {
      var pre, last := paths[..|paths| - 1], paths[|paths| - 1];
      CollectEmpty(contribute, pre);
      assert paths == pre + [last];
    }
  }

  /** An argument is reported exactly when it contributes nothing, and only such reports are made. */
  lemma {:induction false} MissingExactly(contribute: Path -> seq<Path>, paths: seq<Path>)
    ensures forall p :: PathNotFound(p) in Missing(contribute, paths) <==> p in paths && contribute(p) == []
    ensures forall l :: l in Missing(contribute, paths) ==> l.PathNotFound?
  {
    if paths != [] {
      var pre, last := paths[..|paths| - 1], paths[|paths| - 1];
      MissingExactly(contribute, pre);
      assert paths == pre + [last];
    }
  }

  /** Two ways of contributing that agree on the arguments collect and report the same. */
  lemma {:induction false} CollectAgree(c: Path -> seq<Path>, d: Path -> seq<Path>, paths: seq<Path>)
    requires forall k :: 0 <= k < |paths| ==> c(paths[k]) == d(paths[k])
    ensures Collect(c, paths) == Collect(d, paths)
    ensures Missing(c, paths) == Missing(d, paths)
  {
    if paths != [] {
      var pre := paths[..|paths| - 1];
      assert forall k :: 0 <= k < |pre| ==> pre[k] == paths[k];
      CollectAgree(c, d, pre);
    }
  }

  /**
   * The XML paths one argument of GetAllFiles stands for: an existing file
   * gives its full name; a directory gives every "*.xml" file below it, in
   * all its subdirectories; anything else gives nothing.
   */
  function Contribution(fs: FileSystem, path: Path): seq<Path> {
    if path in fs.files then [fs.fullName(path)]
    else if path in fs.dirs then fs.xmlTree(path)
    else []
  }

  function Contributor(fs: FileSystem): Path -> seq<Path> {
    path => Contribution(fs, path)
  }

  /** The paths GetAllFiles collects for its arguments. */
  function Expand(fs: FileSystem, paths: seq<Path>): seq<Path> {
    Collect(Contributor(fs), paths)
  }

  /** The lines GetAllFiles prints for arguments that stand for no XML file. */
  function Unfound(fs: FileSystem, paths: seq<Path>): seq<Line> {
    Missing(Contributor(fs), paths)
  }

  /**
   * A path is collected exactly when some argument stands for it: it is the
   * full name of an existing file argument, or an XML file below an existing
   * directory argument.
   */
  lemma ExpandMembers(fs: FileSystem, paths: seq<Path>)
    ensures forall x :: x in Expand(fs, paths) <==>
      exists k :: 0 <= k < |paths| &&
        (if paths[k] in fs.files then x == fs.fullName(paths[k]) else paths[k] in fs.dirs && x in fs.xmlTree(paths[k]))
  {
    CollectMembers(Contributor(fs), paths);
  }

  /**
   * An argument is reported as not found exactly when it is neither an
   * existing file nor a directory holding at least one XML file.
   */
  lemma UnfoundExactly(fs: FileSystem, paths: seq<Path>)
    ensures forall p :: PathNotFound(p) in Unfound(fs, paths) <==>
      p in paths && p !in fs.files && (p !in fs.dirs || fs.xmlTree(p) == [])
    ensures forall l :: l in Unfound(fs, paths) ==> l.PathNotFound?
  {
    MissingExactly(Contributor(fs), paths);
  }

  /**
   * GetAllFiles. `args[0]` is the schema; the other arguments are copied
   * into `paths` and expanded one by one, a directory through its own inner
   * loop. An argument that adds nothing is reported. The report lines are
   * returned in the order they are printed; nothing else is printed here.
   */
  method GetAllFiles(fs: FileSystem, args: seq<string>) returns (xmlFiles: seq<Path>, notFound: seq<Line>)
    requires |args| >= 1
    ensures xmlFiles == Expand(fs, args[1..])
    ensures notFound == Unfound(fs, args[1..])
  {
    var paths := new Path[|args| - 1];
    for i := 0 to |args| - 1
      invariant paths[..i] == args[1..i + 1]
    {
      paths[i] := args[i + 1];
    }
    ghost var inputs := paths[..];
    assert inputs == args[1..];
    xmlFiles := [];
    notFound := [];
    for j := 0 to paths.Length
      invariant paths[..] == inputs
      invariant xmlFiles == Expand(fs, inputs[..j])
      invariant notFound == Unfound(fs, inputs[..j])
    {
      var path := paths[j];
      CollectStepAt(Contributor(fs), inputs, j);
      var found := false;
      if path in fs.files {
        found := true;
        xmlFiles := xmlFiles + [fs.fullName(path)];
      } else if path in fs.dirs {
        var files := fs.xmlTree(path);
        ghost var before := xmlFiles;
        for k := 0 to |files|
          invariant paths[..] == inputs
          invariant xmlFiles == before + files[..k]
        {
          AppendAssoc(before, files[..k], [files[k]]);
          TakeStep(files, k);
          xmlFiles := xmlFiles + [files[k]];
        }
        TakeAll(files);
        found := |files| > 0;
      }
      if !found {
        notFound := notFound + [PathNotFound(path)];
      }
    }
    TakeAll(inputs);
  }

  /** How a run ends: its exit code (or crash) and everything it printed. */
  datatype Ending = Ending(exit: Halt, log: seq<Line>)

  /**
   * Main once the schema phase has succeeded and the inputs are expanded
   * into `files`, with `notFound` reported on the way: validate the files
   * (or say there are none), then report. The log holds what is printed
   * from the expansion on.
   */
  function Validated(fs: FileSystem, lib: XmlLibrary, schema: Reference, files: seq<Path>, notFound: seq<Line>): Ending {
    if files == [] then Ending(Exited(0), notFound + [NoXmlFiles] + Summary(Counts(0, 0)))
    else
      var reg := lib.register(schema.ns, schema.path);
      var started := notFound + [Heading(FilesTitle)] + RegistrationLines(reg);
      if reg == SchemaMalformed then Ending(Exited(3), started)
      else
        var t := BatchTally(fs, lib, files);
        Ending(Exited(t.nonValid), started + BatchLines(fs, lib, files) + Summary(t))
  }

  /**
   * Main past the options and About: the validator's constructor (the
   * schema phase), then, when there are inputs, their validation.
   */
  function Checked(fs: FileSystem, lib: XmlLibrary, schema: Path, inputs: seq<Path>): Ending {
    var s := Setup(fs, lib, schema);
    match s.step
    case Halted(h) => Ending(h, s.lines)
    case Done(reference) =>
      if inputs == [] then Ending(Exited(0), s.lines)
      else
        var v := Validated(fs, lib, reference, Expand(fs, inputs), Unfound(fs, inputs));
        Ending(v.exit, s.lines + v.log)
  }

  /** Main: what a run with the given arguments prints and how it ends. */
  function Behaviour(fs: FileSystem, lib: XmlLibrary, args: seq<string>): Ending {
    match Dispatch(args)
    case ShowUsage(code) => Ending(Exited(code), [Banner, UsageText])
    case ShowVersion => Ending(Exited(0), [VersionText])
    case Check(schema, inputs) =>
      var c := Checked(fs, lib, schema, inputs);
      Ending(c.exit, [Banner] + c.log)
  }

  /** Main, run against a fresh console: the exit code and everything printed. */
  method Run(fs: FileSystem, lib: XmlLibrary, args: seq<string>) returns (exit: Halt, log: seq<Line>)
    ensures Ending(exit, log) == Behaviour(fs, lib, args)
  {
    var console := new Console();
    if |args| < 1 {
      console.Print(Banner);
      console.Print(UsageText);
      return Exited(1), console.lines;
    }
    match args[0] {
      case "-h" | "--help" =>
        console.Print(Banner);
        console.Print(UsageText);
        return Exited(0), console.lines;
      case "-v" | "--version" =>
        console.Print(VersionText);
        return Exited(0), console.lines;
      case _ =>
    }
    console.Print(Banner);
    assert console.lines == [Banner];
    exit := Launch(fs, lib, args, console);
    log := console.lines;
  }

  /** Main from the validator's constructor on. */
  method Launch(fs: FileSystem, lib: XmlLibrary, args: seq<string>, console: Console) returns (exit: Halt)
    requires |args| >= 1
    modifies console
    ensures var c := Checked(fs, lib, args[0], args[1..]);
      exit == c.exit && console.lines == old(console.lines) + c.log
  {
    var validator := new Validator(Some(args[0]), fs, lib, console);
    if validator.halt.Some? {
      return validator.halt.value;
    }
    if |args| == 1 {
      return Exited(0);
    }
    var xmlFiles, notFound := GetAllFiles(fs, args);
    exit := Proceed(validator, xmlFiles, notFound);
    ghost var v := Validated(fs, lib, Reference(validator.pathSchema, validator.nameSpace), xmlFiles, notFound);
    AppendAssoc(old(console.lines), Setup(fs, lib, args[0]).lines, v.log);
  }

  /**
   * The rest of Main once the validator is built and the inputs expanded:
   * print what was not found, validate, report.
   */
  method Proceed(validator: Validator, xmlFiles: seq<Path>, notFound: seq<Line>) returns (exit: Halt)
    requires validator.Valid() && validator.halt.None? && validator.Tallied() == Counts(0, 0)
    modifies validator, validator.console
    ensures validator.pathSchema == old(validator.pathSchema) && validator.nameSpace == old(validator.nameSpace)
    ensures var v := Validated(validator.fs, validator.lib, Reference(validator.pathSchema, validator.nameSpace), xmlFiles, notFound);
      exit == v.exit && validator.console.lines == old(validator.console.lines) + v.log
  {
    var fs, lib, console := validator.fs, validator.lib, validator.console;
    ghost var start := console.lines;
    console.PrintAll(notFound);
    ghost var tail := notFound;
    if |xmlFiles| > 0 {
      validator.ValidateXmlFiles(xmlFiles);
      ghost var reg := lib.register(validator.nameSpace, validator.pathSchema);
      AppendAssoc(start, tail, [Heading(FilesTitle)]);
      AppendAssoc(start, tail + [Heading(FilesTitle)], RegistrationLines(reg));
      tail := tail + [Heading(FilesTitle)] + RegistrationLines(reg);
      if validator.halt.Some? {
        return validator.halt.value;
      }
      AppendAssoc(start, tail, BatchLines(fs, lib, xmlFiles));
      tail := tail + BatchLines(fs, lib, xmlFiles);
    } else {
      console.Print(NoXmlFiles);
      AppendAssoc(start, tail, [NoXmlFiles]);
      tail := tail + [NoXmlFiles];
    }
    assert console.lines == start + tail;
    AppendAssoc(start, tail, Summary(validator.Tallied()));
    var code := validator.PrintReport();
    exit := Exited(code);
  }

  /**
   * Once the schema is accepted and registered, the exit code is the number
   * of opened documents that raised a diagnostic or an exception; so it is
   * 0 exactly when every document that was opened is valid.
   */
  lemma ExitCodeCountsNonValid(fs: FileSystem, lib: XmlLibrary, args: seq<string>)
    requires |args| >= 2 && !IsHelp(args[0]) && !IsVersion(args[0])
    requires Setup(fs, lib, args[0]).step.Done?
    requires lib.register(Setup(fs, lib, args[0]).step.value.ns, args[0]) != SchemaMalformed
    ensures var docs := Opened(fs, Expand(fs, args[1..]));
      && Behaviour(fs, lib, args).exit == Exited(Tally(Loads(lib, docs)).nonValid)
      && (Behaviour(fs, lib, args).exit == Exited(0) <==> forall p :: p in docs ==> !Flagged(lib.load(p)))
  {
    var files := Expand(fs, args[1..]);
    var s := Setup(fs, lib, args[0]);
    WildcardBranchUnreachable(fs, lib, args[0]);
    ValidatedExit(fs, lib, s.step.value, files, Unfound(fs, args[1..]));
    BatchClean(fs, lib, files);
  }

  /** After a registered schema, the exit code is the batch's non-valid counter. */
  lemma ValidatedExit(fs: FileSystem, lib: XmlLibrary, schema: Reference, files: seq<Path>, notFound: seq<Line>)
    requires lib.register(schema.ns, schema.path) != SchemaMalformed
    ensures Validated(fs, lib, schema, files, notFound).exit == Exited(BatchTally(fs, lib, files).nonValid)
  {
  }

  /** With the schema as the only argument, the run ends after the schema phase, with 0 if that succeeds. */
  lemma SchemaOnly(fs: FileSystem, lib: XmlLibrary, arg: string)
    requires !IsHelp(arg) && !IsVersion(arg)
    ensures var s := Setup(fs, lib, arg);
      && Behaviour(fs, lib, [arg]).exit == (if s.step.Done? then Exited(0) else s.step.halt)
      && Behaviour(fs, lib, [arg]).log == [Banner] + s.lines
  {
  }

  /**
   * "-h"/"--help" and "-v"/"--version" succeed whatever follows them and
   * whatever the file system holds: nothing else is read or validated.
   */
  lemma OptionsTakePrecedence(fs: FileSystem, lib: XmlLibrary, args: seq<string>, fs': FileSystem, lib': XmlLibrary, args': seq<string>)
    requires |args| >= 1 && (IsHelp(args[0]) || IsVersion(args[0]))
    requires |args'| >= 1 && args'[0] == args[0]
    ensures Behaviour(fs, lib, args) == Behaviour(fs', lib', args')
    ensures Behaviour(fs, lib, args).exit == Exited(0)
  {
  }

  /**
   * When no input stands for any XML file, every input is reported as not
   * found, "No XML files found." follows, the summary says nothing was
   * processed and the run succeeds.
   */
  lemma NothingFound(fs: FileSystem, lib: XmlLibrary, args: seq<string>)
    requires |args| >= 2 && !IsHelp(args[0]) && !IsVersion(args[0])
    requires Setup(fs, lib, args[0]).step.Done?
    requires Expand(fs, args[1..]) == []
    ensures Behaviour(fs, lib, args).exit == Exited(0)
    ensures forall p :: p in args[1..] ==> PathNotFound(p) in Behaviour(fs, lib, args).log
    ensures NoXmlFiles in Behaviour(fs, lib, args).log && NothingProcessed in Behaviour(fs, lib, args).log
  {
    var inputs := args[1..];
    var s := Setup(fs, lib, args[0]);
    var v := Validated(fs, lib, s.step.value, [], Unfound(fs, inputs));
    EmptyExpansion(fs, inputs);
    assert Behaviour(fs, lib, args).log == [Banner] + s.lines + v.log;
    assert v.log == Unfound(fs, inputs) + [NoXmlFiles] + Summary(Counts(0, 0));
  }

  /** When the arguments expand to nothing, each of them is reported as not found. */
  lemma EmptyExpansion(fs: FileSystem, paths: seq<Path>)
    requires Expand(fs, paths) == []
    ensures forall p :: p in paths ==> PathNotFound(p) in Unfound(fs, paths)
  {
    MissingExactly(Contributor(fs), paths);
    CollectEmpty(Contributor(fs), paths);
  }
}
