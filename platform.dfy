/**
 * The world the validator runs in, as fixed oracles: the file system and the
 * .NET XML library. The validator only asks them questions; it never changes
 * them, so each is a value.
 */
module Platform {

  type Path = string

  datatype Option<T> = None | Some(value: T)

  /** How the process ends early: `Environment.Exit(code)`, or an exception nobody catches. */
  datatype Halt = Exited(code: int) | Crashed

  /** A step that either produces a value or ends the process. */
  datatype Step<T> = Done(value: T) | Halted(halt: Halt)

  /** The two severities the validation handler receives. */
  datatype Severity = Warning | Error

  /** One validation event: severity, line number and line position. */
  datatype Diagnostic = Diagnostic(severity: Severity, line: int, pos: int)

  /** The exception types the per-file catch blocks name (all three are handled alike). */
  datatype Fault = XmlFault | FileNotFoundFault | OtherFault

  /**
   * Loading one XML document through the validating reader: the diagnostics
   * handed to the validation handler, in the order they are raised, then
   * possibly an exception that ends the load.
   */
  datatype Load = Load(diagnostics: seq<Diagnostic>, thrown: Option<Fault>)

  /** `XmlSchema.Read` on the schema: the diagnostics it raises, then whether it threw. */
  datatype SchemaRead = SchemaRead(diagnostics: seq<Diagnostic>, thrown: bool)

  /**
   * `XmlReaderSettings.Schemas.Add(namespace, path)`: accepted, rejected with an
   * `XmlSchemaException`, or failed with an `XmlException`.
   */
  datatype Registration = Registered | SchemaRejected | SchemaMalformed

  /** The XPath query for the root's `targetNamespace` attribute on the schema file: not well-formed XML, or the attribute if any. */
  datatype NamespaceProbe = NotWellFormed | Probed(attribute: Option<string>)

  /**
   * The file system as the program sees it.
   *   files      paths for which `File.Exists` / `FileInfo.Exists` hold
   *   dirs       paths for which `Directory.Exists` holds
   *   illegal    paths on which `new FileInfo(path)` throws `ArgumentException`
   *   fullName   `FileInfo.FullName`
   *   xmlTree    `Directory.EnumerateFiles(path, "*.xml", SearchOption.AllDirectories)`
   *   listing    `Directory.GetFiles(path)` (top level only)
   *   extension  `FileInfo.Extension`
   *   glob       `Directory.GetFiles(directory part, file-name pattern)` of a wildcard path
   */
  datatype FileSystem = FileSystem(
    files: set<Path>,
    dirs: set<Path>,
    illegal: set<Path>,
    fullName: Path -> Path,
    xmlTree: Path -> seq<Path>,
    listing: Path -> seq<Path>,
    extension: Path -> string,
    glob: Path -> seq<Path>)

  /**
   * The XML library as the program sees it: the namespace probe, schema
   * reading, schema registration and the validating load of one document.
   */
  datatype XmlLibrary = XmlLibrary(
    targetNamespace: Path -> NamespaceProbe,
    readSchema: Path -> SchemaRead,
    register: (string, Path) -> Registration,
    load: Path -> Load)

  /** Output and lists built up piece by piece: appending in two steps appends the whole. */
  lemma AppendAssoc<T>(a: seq<T>, b: seq<T>, c: seq<T>)
    ensures a + b + c == a + (b + c)
  {
  }

  /** A loop over a sequence takes one more element per step. */
  lemma TakeStep<T>(s: seq<T>, k: nat)
    requires k < |s|
    ensures s[..k + 1] == s[..k] + [s[k]]
  {
  }

  /** A loop over a sequence ends having taken all of it. */
  lemma TakeAll<T>(s: seq<T>)
    ensures s[..|s|] == s
  {
  }
}
