/**
 * The earlier single-file version of the tool (xvalidatr.cs). Its Validator
 * class runs the same steps as the one in Validation (the constructor has
 * no null check because Main always passes a schema, and validateSchema's
 * result is discarded), so the same class models it. Its reader settings do
 * not ask for inline schemas to be processed, so the library a run of this
 * version is given stands for the XML library as seen through that reader:
 * it may load a document carrying an inline schema differently. What else
 * differs is Main, which has no options, and getAllFiles, which lists a
 * directory's top level only and expands anything else as a wildcard.
 */
module Draft {
  import opened Platform
  import opened Output
  import opened Verdict
  import opened Schema
  import opened Validation
  import App

  /** The full names of the listed files whose extension is exactly ".xml", in listing order. */
  function XmlListing(fs: FileSystem, names: seq<Path>): seq<Path> {
    if names == [] then []
    else
      var last := names[|names| - 1];
      XmlListing(fs, names[..|names| - 1]) + (if fs.extension(last) == ".xml" then [fs.fullName(last)] else [])
  }

  /** A path is in the listing's XML files exactly when it is the full name of a listed ".xml" file. */
  lemma {:induction false} XmlListingMembers(fs: FileSystem, names: seq<Path>)
    ensures forall x :: x in XmlListing(fs, names) <==>
      exists k :: 0 <= k < |names| && fs.extension(names[k]) == ".xml" && x == fs.fullName(names[k])
  {
    if names != [] {
      var pre, last := names[..|names| - 1], names[|names| - 1];
      XmlListingMembers(fs, pre);
      assert names == pre + [last];
      forall x | x in XmlListing(fs, names)
        ensures exists k :: 0 <= k < |names| && fs.extension(names[k]) == ".xml" && x == fs.fullName(names[k])
      {
        if x !in XmlListing(fs, pre) {
          assert fs.extension(names[|names| - 1]) == ".xml";
        }
      }
    }
  }

  /** A listing yields no XML file exactly when no listed file has the ".xml" extension. */
  lemma {:induction false} XmlListingEmpty(fs: FileSystem, names: seq<Path>)
    ensures XmlListing(fs, names) == [] <==> forall k :: 0 <= k < |names| ==> fs.extension(names[k]) != ".xml"
  {
    if names != [] {
      var pre := names[..|names| - 1];
      XmlListingEmpty(fs, pre);
      assert forall k :: 0 <= k < |pre| ==> pre[k] == names[k];
    }
  }

  /**
   * The paths one argument of getAllFiles stands for: an existing file gives
   * its full name, a directory the XML files directly in it, and anything
   * else every file its wildcard matches, whatever the extension.
   */
  function Contribution(fs: FileSystem, path: Path): seq<Path> {
    if path in fs.files then [fs.fullName(path)]
    else if path in fs.dirs then XmlListing(fs, fs.listing(path))
    else fs.glob(path)
  }

  function Contributor(fs: FileSystem): Path -> seq<Path> {
    path => Contribution(fs, path)
  }

  /** The paths getAllFiles collects for its arguments. */
  function Expand(fs: FileSystem, paths: seq<Path>): seq<Path> {
    App.Collect(Contributor(fs), paths)
  }

  /** The lines getAllFiles prints for arguments that stand for nothing. */
  function Unfound(fs: FileSystem, paths: seq<Path>): seq<Line> {
    App.Missing(Contributor(fs), paths)
  }

  /**
   * A path is collected exactly when some argument stands for it: it is the
   * full name of an existing file argument, of a ".xml" file listed directly
   * in a directory argument, or a match of a wildcard argument.
   */
  lemma ExpandMembers(fs: FileSystem, paths: seq<Path>)
    ensures forall x :: x in Expand(fs, paths) <==>
      exists k :: 0 <= k < |paths| &&
        if paths[k] in fs.files then x == fs.fullName(paths[k])
        else if paths[k] in fs.dirs then
          exists j :: 0 <= j < |fs.listing(paths[k])| &&
            fs.extension(fs.listing(paths[k])[j]) == ".xml" && x == fs.fullName(fs.listing(paths[k])[j])
        else x in fs.glob(paths[k])
  {
    App.CollectMembers(Contributor(fs), paths);
    forall k | 0 <= k < |paths| && paths[k] !in fs.files && paths[k] in fs.dirs {
      XmlListingMembers(fs, fs.listing(paths[k]));
    }
  }

  /**
   * An argument is reported as not found exactly when it is not an existing
   * file, and it is a directory with no ".xml" file directly in it or a
   * wildcard that matches nothing; nothing else is reported.
   */
  lemma UnfoundExactly(fs: FileSystem, paths: seq<Path>)
    ensures forall p :: PathNotFound(p) in Unfound(fs, paths) <==>
      && p in paths && p !in fs.files
      && (if p in fs.dirs then forall k :: 0 <= k < |fs.listing(p)| ==> fs.extension(fs.listing(p)[k]) != ".xml"
          else fs.glob(p) == [])
    ensures forall l :: l in Unfound(fs, paths) ==> l.PathNotFound?
  {
    App.MissingExactly(Contributor(fs), paths);
    forall p | p in paths && p in fs.dirs {
      XmlListingEmpty(fs, fs.listing(p));
    }
  }

  /**
   * getAllFiles. The arguments after the schema are copied into `paths`;
   * each is expanded through its own inner loop, and one that adds nothing
   * is reported. The report lines are returned in the order printed.
   */
  method GetAllFiles(fs: FileSystem, args: seq<string>) returns (xmlFiles: seq<Path>, notFound: seq<Line>)
    requires |args| >= 1
    ensures xmlFiles == Expand(fs, args[1..])
    ensures notFound == Unfound(fs, args[1..])
  {
    var paths := new Path[|args| - 1];
    for i := 0 to |args| - 1
      invariant paths[..i] == args[1..i + 1]
    {
      paths[i] := args[i + 1];
    }
    ghost var inputs := paths[..];
    assert inputs == args[1..];
    xmlFiles := [];
    notFound := [];
    for j := 0 to paths.Length
      invariant paths[..] == inputs
      invariant xmlFiles == Expand(fs, inputs[..j])
      invariant notFound == Unfound(fs, inputs[..j])
    {
      var path := paths[j];
      App.CollectStepAt(Contributor(fs), inputs, j);
      var found := false;
      ghost var before := xmlFiles;
      if path in fs.files {
        found := true;
        xmlFiles := xmlFiles + [fs.fullName(path)];
      } else if path in fs.dirs {
        var files := fs.listing(path);
        for k := 0 to |files|
          invariant paths[..] == inputs
          invariant xmlFiles == before + XmlListing(fs, files[..k])
          invariant found <==> XmlListing(fs, files[..k]) != []
        {
          TakeStep(files, k);
          assert files[..k + 1][..k] == files[..k];
          if fs.extension(files[k]) == ".xml" {
            found := true;
            AppendAssoc(before, XmlListing(fs, files[..k]), [fs.fullName(files[k])]);
            xmlFiles := xmlFiles + [fs.fullName(files[k])];
          }
        }
        TakeAll(files);
      } else {
        // taken for a wildcard: the files of its directory that match its last part
        var wildcardFiles := fs.glob(path);
        if |wildcardFiles| > 0 {
          found := true;
          for k := 0 to |wildcardFiles|
            invariant paths[..] == inputs
            invariant xmlFiles == before + wildcardFiles[..k]
          {
            AppendAssoc(before, wildcardFiles[..k], [wildcardFiles[k]]);
            TakeStep(wildcardFiles, k);
            xmlFiles := xmlFiles + [wildcardFiles[k]];
          }
          TakeAll(wildcardFiles);
        }
      }
      if !found {
        notFound := notFound + [PathNotFound(path)];
      }
    }
    TakeAll(inputs);
  }

  /**
   * Main: About first, whatever the arguments; no argument shows the usage
   * and exits with 1; otherwise the first argument is the schema.
   */
  function Behaviour(fs: FileSystem, lib: XmlLibrary, args: seq<string>): App.Ending {
    if |args| < 1 then App.Ending(Exited(1), [Banner, UsageText])
    else
      var c := Checked(fs, lib, args);
      App.Ending(c.exit, [Banner] + c.log)
  }

  /**
   * Main after About, given a schema: the validator's constructor (the
   * schema phase), then, when there are further arguments, their
   * expansion, validation and the report.
   */
  function Checked(fs: FileSystem, lib: XmlLibrary, args: seq<string>): App.Ending
    requires |args| >= 1
  {
    var s := Setup(fs, lib, args[0]);
    match s.step
    case Halted(h) => App.Ending(h, s.lines)
    case Done(reference) =>
      if |args| > 1 then
        var v := App.Validated(fs, lib, reference, Expand(fs, args[1..]), Unfound(fs, args[1..]));
        App.Ending(v.exit, s.lines + v.log)
      else App.Ending(Exited(0), s.lines)
  }

  /** Main, run against a fresh console. */
  method Run(fs: FileSystem, lib: XmlLibrary, args: seq<string>) returns (exit: Halt, log: seq<Line>)
    ensures App.Ending(exit, log) == Behaviour(fs, lib, args)
  {
    var console := new Console();
    console.Print(Banner);
    if |args| < 1 {
      // Usage ends the process with exit code 1
      console.Print(UsageText);
      return Exited(1), console.lines;
    }
    exit := Launch(fs, lib, args, console);
    log := console.lines;
  }

  /** Main from the validator's constructor on. */
  method Launch(fs: FileSystem, lib: XmlLibrary, args: seq<string>, console: Console) returns (exit: Halt)
    requires |args| >= 1
    modifies console
    ensures var c := Checked(fs, lib, args);
      exit == c.exit && console.lines == old(console.lines) + c.log
  {
    var validator := new Validator(Some(args[0]), fs, lib, console);
    if validator.halt.Some? {
      return validator.halt.value;
    }
    exit := Exited(0);
    if |args| > 1 {
      var xmlFiles, notFound := GetAllFiles(fs, args);
      exit := App.Proceed(validator, xmlFiles, notFound);
      ghost var v := App.Validated(fs, lib, Reference(validator.pathSchema, validator.nameSpace), xmlFiles, notFound);
      AppendAssoc(old(console.lines), Setup(fs, lib, args[0]).lines, v.log);
    }
  }

  /**
   * The earlier version has no options: "-h", "--help", "-v" and
   * "--version" are taken for the schema path like anything else, so every
   * run with an argument starts the schema phase.
   */
  lemma NoOptions(fs: FileSystem, lib: XmlLibrary, args: seq<string>)
    requires |args| >= 1
    ensures |Behaviour(fs, lib, args).log| >= 2
    ensures Behaviour(fs, lib, args).log[..2] == [Banner, Heading(NamespaceTitle)]
  {
  }

  /**
   * Both versions treat an existing file the same way, so on a run with no
   * option whose inputs are all existing files they print the same lines
   * and end the same way; with no argument at all they agree too. The
   * draft's reader does not process inline schemas, so its library (`draft`)
   * is a different one from the newer version's (`lib`): the two agree here
   * when they probe, read and register schemas alike and load every
   * existing document alike.
   */
  lemma VersionsAgreeOnFiles(fs: FileSystem, lib: XmlLibrary, draft: XmlLibrary, args: seq<string>)
    requires draft == lib.(load := draft.load)
    requires forall p :: p in fs.files ==> draft.load(p) == lib.load(p)
    requires |args| >= 1 ==> !App.IsHelp(args[0]) && !App.IsVersion(args[0])
    requires forall k :: 1 <= k < |args| ==> args[k] in fs.files
    ensures Behaviour(fs, draft, args) == App.Behaviour(fs, lib, args)
  {
    if |args| >= 1 {
      SameExpansion(fs, args[1..]);
      BatchAgree(fs, draft, lib, Expand(fs, args[1..]));
    }
  }

  lemma SameExpansion(fs: FileSystem, paths: seq<Path>)
    requires forall k :: 0 <= k < |paths| ==> paths[k] in fs.files
    ensures Expand(fs, paths) == App.Expand(fs, paths)
    ensures Unfound(fs, paths) == App.Unfound(fs, paths)
  {
    App.CollectAgree(Contributor(fs), App.Contributor(fs), paths);
  }
}
