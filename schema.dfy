/**
 * How the validator's constructor turns the schema argument into a schema
 * file and a target namespace: first GetNameSpace, then ValidateSchema.
 * Each phase is a function giving its outcome and the lines it prints; the
 * one validator class, Validation.Validator, is proved against them.
 */
module Schema {
  import opened Platform
  import opened Output
  import opened Verdict

  /** The schema the run validates against: the path it is read from and its target namespace. */
  datatype Reference = Reference(path: Path, ns: string)

  /** An outcome together with the lines printed on the way to it. */
  datatype Phase<T> = Phase(step: Step<T>, lines: seq<Line>)

  /**
   * The rule ValidateSchema applies to the files a wildcard schema argument
   * matches: exactly one match is adopted; none, or more than one, ends the
   * process with exit code 2.
   */
  function MatchRule(matches: seq<Path>): (r: Step<Path>)
    ensures r.Done? <==> |matches| == 1
    ensures r.Done? ==> r.value == matches[0]
    ensures r.Halted? ==> r.halt == Exited(2)
  {
    if |matches| == 0 then Halted(Exited(2))
    else if |matches| > 1 then Halted(Exited(2))
    else Done(matches[0])
  }

  /**
   * GetNameSpace. `new FileInfo` sits outside the try block, whose only catch
   * is for `XmlException`, so a path it rejects ends the process with an
   * uncaught exception; a missing file exits with 2, a schema that is not
   * well-formed XML with 3. Otherwise the namespace is the root's
   * `targetNamespace` attribute, or "" when there is none.
   */
  function ExtractNamespace(fs: FileSystem, lib: XmlLibrary, path: Path): (r: Phase<string>)
    ensures r.step == Halted(Crashed) <==> path in fs.illegal
    ensures r.step == Halted(Exited(2)) <==> path !in fs.illegal && path !in fs.files
    ensures r.step == Halted(Exited(3)) <==>
      path !in fs.illegal && path in fs.files && lib.targetNamespace(fs.fullName(path)).NotWellFormed?
    ensures r.step.Done? ==>
      (r.step.value == "" <==> lib.targetNamespace(fs.fullName(path)) in {Probed(None), Probed(Some(""))})
    ensures path !in fs.illegal && path in fs.files ==>
      forall v :: lib.targetNamespace(fs.fullName(path)) == Probed(Some(v)) ==> r.step == Done(v)
    ensures path !in fs.illegal && path in fs.files && lib.targetNamespace(fs.fullName(path)) == Probed(None) ==>
      r.step == Done("")
    ensures r.step.Done? ==> |r.lines| == 3 && r.lines[2] == NamespaceNote(r.step.value)
  {
    var head := [Heading(NamespaceTitle)];
    if path in fs.illegal then Phase(Halted(Crashed), head)
    else if path !in fs.files then Phase(Halted(Exited(2)), head + [SchemaNotFound(path)])
    else
      match lib.targetNamespace(fs.fullName(path))
      case NotWellFormed => Phase(Halted(Exited(3)), head + [SchemaFault])
      case Probed(attribute) =>
        var ns := if attribute.Some? then attribute.value else "";
        Phase(Done(ns), head + [Target(fs.fullName(path)), NamespaceNote(ns)])
  }

  /** Where ValidateSchema found the schema: the name it shows, and the path it reads. */
  datatype Located = Located(shown: Path, path: Path)

  /**
   * The first try block of ValidateSchema. A path `new FileInfo` rejects is
   * taken for a wildcard and resolved by MatchRule over the files it
   * matches; a missing file exits with 2; an existing file is used as given.
   */
  function Locate(fs: FileSystem, path: Path): (r: Phase<Located>)
    ensures path in fs.illegal ==> (r.step.Done? <==> |fs.glob(path)| == 1)
    ensures path in fs.illegal && r.step.Done? ==> r.step.value == Located(fs.glob(path)[0], fs.glob(path)[0])
    ensures path !in fs.illegal ==> (r.step.Done? <==> path in fs.files)
    ensures path !in fs.illegal && r.step.Done? ==> r.step.value == Located(fs.fullName(path), path)
    ensures r.step.Halted? ==> r.step.halt == Exited(2)
    ensures SchemaAmbiguous(path) in r.lines <==> path in fs.illegal && |fs.glob(path)| > 1
  {
    var head := [Heading(SchemaTitle)];
    if path in fs.illegal then
      match MatchRule(fs.glob(path))
      case Done(m) => Phase(Done(Located(m, m)), head)
      case Halted(h) =>
        Phase(Halted(h), head + [if |fs.glob(path)| == 0 then SchemaNotFound(path) else SchemaAmbiguous(path)])
    else if path !in fs.files then Phase(Halted(Exited(2)), head + [SchemaNotFound(path)])
    else Phase(Done(Located(fs.fullName(path), path)), head)
  }

  /**
   * The second try block of ValidateSchema: read the schema, letting the
   * validation handler see its diagnostics with `_error` at `raised`; any
   * exception exits with 3; otherwise the result is `_error` afterwards.
   */
  function ReadSchema(lib: XmlLibrary, at: Located, raised: bool): (r: Phase<bool>)
    ensures r.step.Halted? <==> lib.readSchema(at.path).thrown
    ensures r.step.Halted? ==> r.step.halt == Exited(3)
    ensures r.step.Done? ==> (r.step.value <==> raised || |lib.readSchema(at.path).diagnostics| > 0)
    ensures r.step.Done? ==> (Ok in r.lines <==> !r.step.value)
  {
    var read := lib.readSchema(at.path);
    var flagged := raised || |read.diagnostics| > 0;
    var lines := [Target(at.shown)] + Echo(raised, read.diagnostics);
    EchoLines(raised, read.diagnostics);
    if read.thrown then Phase(Halted(Exited(3)), lines + [SchemaFault])
    else Phase(Done(flagged), lines + [if flagged then SchemaErrors else Ok])
  }

  /**
   * The whole schema phase of the constructor: GetNameSpace, then
   * ValidateSchema (whose handler starts with `_error` clear).
   */
  function Setup(fs: FileSystem, lib: XmlLibrary, arg: Path): Phase<Reference> {
    var n := ExtractNamespace(fs, lib, arg);
    match n.step
    case Halted(h) => Phase(Halted(h), n.lines)
    case Done(ns) =>
      var l := Locate(fs, arg);
      match l.step
      case Halted(h) => Phase(Halted(h), n.lines + l.lines)
      case Done(at) =>
        var rd := ReadSchema(lib, at, false);
        var step := if rd.step.Halted? then Halted(rd.step.halt) else Done(Reference(at.path, ns));
        Phase(step, n.lines + l.lines + rd.lines)
  }

  /** The `_error` flag the schema phase leaves behind when it succeeds. */
  function SetupFlagged(fs: FileSystem, lib: XmlLibrary, arg: Path): bool {
    |lib.readSchema(arg).diagnostics| > 0
  }

  /**
   * The exit codes of the schema phase: an argument `new FileInfo` rejects
   * crashes, a missing schema exits with 2, a schema that cannot be read
   * exits with 3; otherwise the argument itself is the schema.
   */
  lemma SetupOutcome(fs: FileSystem, lib: XmlLibrary, arg: Path)
    ensures Setup(fs, lib, arg).step == Halted(Crashed) <==> arg in fs.illegal
    ensures Setup(fs, lib, arg).step == Halted(Exited(2)) <==> arg !in fs.illegal && arg !in fs.files
    ensures Setup(fs, lib, arg).step == Halted(Exited(3)) <==>
      arg !in fs.illegal && arg in fs.files &&
      (lib.targetNamespace(fs.fullName(arg)).NotWellFormed? || lib.readSchema(arg).thrown)
    ensures Setup(fs, lib, arg).step.Done? ==>
      Setup(fs, lib, arg).step.value == Reference(arg, ExtractNamespace(fs, lib, arg).step.value)
  {
  }

  /**
   * GetNameSpace runs first and already stops the process for an argument
   * that ValidateSchema would treat as a wildcard, so the wildcard branch
   * never runs: no ambiguity message is ever printed, and the schema read
   * is always the argument itself.
   */
  lemma WildcardBranchUnreachable(fs: FileSystem, lib: XmlLibrary, arg: Path)
    ensures forall p :: SchemaAmbiguous(p) !in Setup(fs, lib, arg).lines
    ensures Setup(fs, lib, arg).step.Done? ==> Setup(fs, lib, arg).step.value.path == arg
  {
    var n := ExtractNamespace(fs, lib, arg);
    if n.step.Done? {
      var l := Locate(fs, arg);
      assert l.lines == [Heading(SchemaTitle)];
      var at := Located(fs.fullName(arg), arg);
      var rd := ReadSchema(lib, at, false);
      var read := lib.readSchema(arg);
      EchoLines(false, read.diagnostics);
      assert rd.lines[1..|rd.lines| - 1] == Echo(false, read.diagnostics);
      forall p ensures SchemaAmbiguous(p) !in Setup(fs, lib, arg).lines {
        assert SchemaAmbiguous(p) !in n.lines;
        assert SchemaAmbiguous(p) !in rd.lines;
      }
    }
  }

  /** The lines CreateXmlReaderSettings prints for the outcome of registering the schema. */
  function RegistrationLines(reg: Registration): seq<Line> {
    if reg == Registered then [] else [SchemaFault]
  }
}
