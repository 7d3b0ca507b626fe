/**
 * The `Validator` class: the schema it validates against, the per-document
 * flags `_error` and `_warning`, and the two counters. Every method is
 * proved against the definitions in Verdict and Schema.
 *
 * `Environment.Exit` and an exception that leaves the class uncaught both
 * end the process; here they set `halt`, and nothing runs on a halted
 * validator.
 */
module Validation {
  import opened Platform
  import opened Output
  import opened Verdict
  import opened Schema

  class Validator {
    const fs: FileSystem
    const lib: XmlLibrary
    const console: Console
    var nameSpace: string
    var error: bool
    var nonValidCount: int
    var pathSchema: Path
    var validCount: int
    var warning: bool
    var halt: Option<Halt>

    /** `_warning` is never raised, and the counters only ever grow from zero. */
    ghost predicate Valid()
      reads this
    {
      !warning && validCount >= 0 && nonValidCount >= 0
    }

    ghost function Tallied(): Counts
      reads this
      requires Valid()
    {
      Counts(validCount, nonValidCount)
    }

    /**
     * With a schema argument: GetNameSpace, then, if the process is still
     * running, ValidateSchema.
     */
    constructor (schema: Option<Path>, fs: FileSystem, lib: XmlLibrary, console: Console)
      modifies console
      ensures Valid() && Tallied() == Counts(0, 0)
      ensures this.fs == fs && this.lib == lib && this.console == console
      ensures schema.None? ==>
        halt.None? && pathSchema == "" && nameSpace == "" && !error && console.lines == old(console.lines)
      ensures schema.Some? ==>
        var s := Setup(fs, lib, schema.value);
        && console.lines == old(console.lines) + s.lines
        && (s.step.Halted? ==> halt == Some(s.step.halt))
        && (s.step.Done? ==>
              && halt.None? && pathSchema == s.step.value.path && nameSpace == s.step.value.ns
              && error == SetupFlagged(fs, lib, schema.value))
    {
      this.fs := fs;
      this.lib := lib;
      this.console := console;
      nameSpace := "";
      error := false;
      nonValidCount := 0;
      pathSchema := "";
      validCount := 0;
      warning := false;
      halt := None;
      new;
      if schema.Some? {
        Resolve(schema.value);
      }
    }

    /** The constructor's work on a schema argument: GetNameSpace, then, if the process is still running, ValidateSchema. */
    method Resolve(schema: Path)
      requires halt.None? && !error
      modifies this`pathSchema, this`nameSpace, this`error, this`halt, console
      ensures var s := Setup(fs, lib, schema);
        && console.lines == old(console.lines) + s.lines
        && (s.step.Halted? ==> halt == Some(s.step.halt))
        && (s.step.Done? ==>
              && halt.None? && pathSchema == s.step.value.path && nameSpace == s.step.value.ns
              && error == SetupFlagged(fs, lib, schema))
    {
      pathSchema := schema;
      var ns := GetNameSpace();
      nameSpace := ns;
      if halt.None? {
        SetupOutcome(fs, lib, schema);
        ValidateSchema();
        ghost var n, l := ExtractNamespace(fs, lib, schema), Locate(fs, schema);
        AppendAssoc(old(console.lines), n.lines, l.lines);
        if l.step.Done? {
          AppendAssoc(old(console.lines), n.lines + l.lines, ReadSchema(lib, l.step.value, false).lines);
        }
      }
    }

    /** Reads the schema's target namespace, or stops the process. */
    method GetNameSpace() returns (ns: string)
      requires halt.None?
      modifies this`halt, console
      ensures var r := ExtractNamespace(fs, lib, pathSchema);
        && console.lines == old(console.lines) + r.lines
        && (r.step.Done? ==> halt.None? && ns == r.step.value)
        && (r.step.Halted? ==> halt == Some(r.step.halt))
    {
      console.Print(Heading(NamespaceTitle));
      ns := "";
      if pathSchema in fs.illegal {
        // new FileInfo throws ArgumentException, and no catch here handles it
        halt := Some(Crashed);
        return;
      }
      if pathSchema !in fs.files {
        console.Print(SchemaNotFound(pathSchema));
        halt := Some(Exited(2));
        return;
      }
      match lib.targetNamespace(fs.fullName(pathSchema)) {
        case NotWellFormed =>
          console.Print(SchemaFault);
          halt := Some(Exited(3));
          return;
        case Probed(attribute) =>
          if attribute.Some? {
            ns := attribute.value;
          }
      }
      console.Print(Target(fs.fullName(pathSchema)));
      console.Print(NamespaceNote(ns));
    }

    /** Locates the schema file (as a path or as a wildcard) and reads it, or stops the process. */
    method ValidateSchema()
      requires halt.None?
      modifies this`pathSchema, this`error, this`halt, console
      ensures var l := Locate(fs, old(pathSchema));
        l.step.Halted? ==>
          && halt == Some(l.step.halt) && pathSchema == old(pathSchema) && error == old(error)
          && console.lines == old(console.lines) + l.lines
      ensures var l := Locate(fs, old(pathSchema));
        l.step.Done? ==>
          var rd := ReadSchema(lib, l.step.value, old(error));
          && pathSchema == l.step.value.path
          && error == (old(error) || |lib.readSchema(pathSchema).diagnostics| > 0)
          && (if rd.step.Halted? then halt == Some(rd.step.halt) else halt.None?)
          && console.lines == old(console.lines) + l.lines + rd.lines
    {
      ghost var start := console.lines;
      var schemaFile := LocateSchema();
      if halt.Some? {
        return;
      }
      ReadSchemaFile(schemaFile);
      AppendAssoc(start, Locate(fs, old(pathSchema)).lines, ReadSchema(lib, Located(schemaFile, pathSchema), old(error)).lines);
    }

    /**
     * The second try block of ValidateSchema: reads the schema, the handler
     * echoing its diagnostics, then reports the outcome or stops the process.
     */
    method ReadSchemaFile(schemaFile: Path)
      requires halt.None?
      modifies this`error, this`halt, console
      ensures var rd := ReadSchema(lib, Located(schemaFile, pathSchema), old(error));
        && error == (old(error) || |lib.readSchema(pathSchema).diagnostics| > 0)
        && (if rd.step.Halted? then halt == Some(rd.step.halt) else halt.None?)
        && console.lines == old(console.lines) + rd.lines
    {
      var read := EchoSchema(schemaFile);
      ghost var echoed := [Target(schemaFile)] + Echo(old(error), read.diagnostics);
      if read.thrown {
        // XmlSchemaException, XmlException or any other exception: its message, then exit code 3
        AppendAssoc(old(console.lines), echoed, [SchemaFault]);
        console.Print(SchemaFault);
        halt := Some(Exited(3));
        return;
      }
      AppendAssoc(old(console.lines), echoed, [if error then SchemaErrors else Ok]);
      if error {
        console.Print(SchemaErrors);
      } else {
        console.Print(Ok);
      }
    }

    /** Shows the schema file and reads it, the handler echoing each diagnostic. */
    method EchoSchema(schemaFile: Path) returns (read: SchemaRead)
      modifies this`error, console
      ensures read == lib.readSchema(pathSchema)
      ensures error == (old(error) || |read.diagnostics| > 0)
      ensures console.lines == old(console.lines) + ([Target(schemaFile)] + Echo(old(error), read.diagnostics))
    {
      console.Print(Target(schemaFile));
      read := lib.readSchema(pathSchema);
      AppendAssoc(old(console.lines), [Target(schemaFile)], Echo(old(error), read.diagnostics));
      Deliver(read.diagnostics);
    }

    /**
     * The first try block of ValidateSchema: the schema file to show, with
     * `_pathSchema` replaced by the single match of a wildcard.
     */
    method LocateSchema() returns (schemaFile: Path)
      requires halt.None?
      modifies this`pathSchema, this`halt, console
      ensures var l := Locate(fs, old(pathSchema));
        && console.lines == old(console.lines) + l.lines
        && (l.step.Halted? ==> halt == Some(l.step.halt) && pathSchema == old(pathSchema))
        && (l.step.Done? ==> halt.None? && schemaFile == l.step.value.shown && pathSchema == l.step.value.path)
    {
      console.Print(Heading(SchemaTitle));
      schemaFile := pathSchema;
      if pathSchema in fs.illegal {
        // taken for a wildcard: the files of its directory that match its last part
        var matches := fs.glob(pathSchema);
        if |matches| == 0 {
          console.Print(SchemaNotFound(pathSchema));
          halt := Some(Exited(2));
        } else if |matches| > 1 {
          console.Print(SchemaAmbiguous(pathSchema));
          halt := Some(Exited(2));
        } else {
          schemaFile := matches[0];
          pathSchema := schemaFile;
        }
      } else if pathSchema !in fs.files {
        console.Print(SchemaNotFound(pathSchema));
        halt := Some(Exited(2));
      } else {
        schemaFile := fs.fullName(pathSchema);
      }
    }

    /** Builds the validating reader: registers the schema under its namespace. */
    method CreateXmlReaderSettings()
      requires halt.None?
      modifies this`halt, console
      ensures var reg := lib.register(nameSpace, pathSchema);
        && console.lines == old(console.lines) + RegistrationLines(reg)
        && halt == (if reg == SchemaMalformed then Some(Exited(3)) else None)
    {
      var reg := lib.register(nameSpace, pathSchema);
      match reg {
        case Registered =>
        case SchemaRejected =>
          console.Print(SchemaFault);
        case SchemaMalformed =>
          console.Print(SchemaFault);
          halt := Some(Exited(3));
      }
    }

    /** The validation handler: a blank line if `_error` was clear, then `_error` raised, then the diagnostic. */
    method ValidationCallback(d: Diagnostic)
      modifies this`error, console
      ensures error
      ensures console.lines == old(console.lines) + (if old(error) then [] else [Blank]) + [Diag(d)]
    {
      if !error {
        console.Print(Blank);
      }
      error := true;
      console.Print(Diag(d));
    }

    /** The XML library handing diagnostics to the validation handler, one by one, in order. */
    method Deliver(ds: seq<Diagnostic>)
      modifies this`error, console
      ensures error == (old(error) || |ds| > 0)
      ensures console.lines == old(console.lines) + Echo(old(error), ds)
    {
      for i := 0 to |ds|
        invariant error == (old(error) || i > 0)
        invariant console.lines == old(console.lines) + Echo(old(error), ds[..i])
      {
        TakeStep(ds, i);
        EchoStep(old(error), ds[..i], ds[i]);
        AppendAssoc(old(console.lines), Echo(old(error), ds[..i]), (if old(error) || i > 0 then [] else [Blank]) + [Diag(ds[i])]);
        ValidationCallback(ds[i]);
      }
      TakeAll(ds);
    }

    /**
     * ValidateXmlFiles: builds the validating reader, then validates each
     * path in turn, unless registering the schema stopped the process.
     */
    method ValidateXmlFiles(xmlFiles: seq<Path>)
      requires Valid() && halt.None?
      modifies this`error, this`warning, this`validCount, this`nonValidCount, this`halt, console
      ensures Valid()
      ensures var reg := lib.register(nameSpace, pathSchema);
        var start := old(console.lines) + [Heading(FilesTitle)] + RegistrationLines(reg);
        if reg == SchemaMalformed then
          && halt == Some(Exited(3)) && Tallied() == old(Tallied()) && console.lines == start
        else
          var t := BatchTally(fs, lib, xmlFiles);
          && halt.None?
          && validCount == old(validCount) + t.valid
          && nonValidCount == old(nonValidCount) + t.nonValid
          && console.lines == start + BatchLines(fs, lib, xmlFiles)
    {
      console.Print(Heading(FilesTitle));
      CreateXmlReaderSettings();
      if halt.None? {
        ValidateEach(xmlFiles);
      }
    }

    /** The loop of ValidateXmlFiles: the paths that exist are validated in the order given, the others skipped. */
    method ValidateEach(xmlFiles: seq<Path>)
      requires Valid()
      modifies this`error, this`warning, this`validCount, this`nonValidCount, console
      ensures Valid()
      ensures Tallied() == Add(old(Tallied()), BatchTally(fs, lib, xmlFiles))
      ensures console.lines == old(console.lines) + BatchLines(fs, lib, xmlFiles)
    {
      for i := 0 to |xmlFiles|
        invariant Valid()
        invariant Tallied() == Add(old(Tallied()), BatchTally(fs, lib, xmlFiles[..i]))
        invariant console.lines == old(console.lines) + BatchLines(fs, lib, xmlFiles[..i])
      {
        BatchStepAt(fs, lib, xmlFiles, i);
        AppendAssoc(old(console.lines), BatchLines(fs, lib, xmlFiles[..i]), Visited(fs, lib, xmlFiles[i]));
        Visit(xmlFiles[i]);
      }
      BatchWhole(fs, lib, xmlFiles);
    }

    /** One iteration of the loop: a path that exists is validated, any other is skipped. */
    method Visit(p: Path)
      requires Valid()
      modifies this`error, this`warning, this`validCount, this`nonValidCount, console
      ensures Valid()
      ensures Tallied() == Bump(fs, lib, old(Tallied()), p)
      ensures console.lines == old(console.lines) + Visited(fs, lib, p)
    {
      if p in fs.files {
        ValidateXmlFile(p);
      }
    }

    /**
     * Validates one document. Both flags start clear, so nothing that came
     * before (the schema, an earlier document) bears on the verdict: exactly
     * one counter grows, by one, and it is the non-valid one exactly when the
     * document raised a diagnostic (of either severity) or an exception.
     */
    method ValidateXmlFile(xmlFile: Path)
      requires Valid()
      modifies this`error, this`warning, this`validCount, this`nonValidCount, console
      ensures Valid()
      ensures var d := lib.load(xmlFile);
        && error == Flagged(d)
        && (if Flagged(d) then nonValidCount == old(nonValidCount) + 1 && validCount == old(validCount)
            else validCount == old(validCount) + 1 && nonValidCount == old(nonValidCount))
        && console.lines == old(console.lines) + FileLines(xmlFile, d)
    {
      error := false;
      warning := false;
      console.Print(Target(xmlFile));
      var d := lib.load(xmlFile);
      Deliver(d.diagnostics);
      ghost var head := [Target(xmlFile)] + Echo(false, d.diagnostics);
      AppendAssoc(old(console.lines), [Target(xmlFile)], Echo(false, d.diagnostics));
      match d.thrown {
        case Some(f) =>
          error := true;
          console.Print(FileFault(f));
        case None =>
      }
      AppendAssoc(old(console.lines), head, FaultLines(d.thrown));
      AppendAssoc(old(console.lines), head + FaultLines(d.thrown), if Flagged(d) then [] else [Ok]);
      if error {
        nonValidCount := nonValidCount + 1;
      } else {
        // the `_warning` branch and the clean branch both count the document valid;
        // only the clean one prints "OK"
        validCount := validCount + 1;
        if !warning {
          console.Print(Ok);
        }
      }
    }

    /** Prints the summary and returns the non-valid count, the process's exit code. */
    method PrintReport() returns (r: int)
      requires Valid()
      modifies console
      ensures r == nonValidCount
      ensures console.lines == old(console.lines) + Summary(Tallied())
    {
      console.Print(Heading(SummaryTitle));
      var total := validCount + nonValidCount;
      if total == 0 {
        console.Print(NothingProcessed);
      } else {
        console.Print(Processed(total));
        if validCount > 0 {
          console.Print(ValidFiles(validCount));
        }
        if nonValidCount > 0 {
          console.Print(NonValidFiles(nonValidCount));
        }
      }
      return nonValidCount;
    }
  }
}
