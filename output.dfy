/**
 * Standard output as a log of lines. A line records which message was
 * printed and the values it carries; wording, colour and centring are not
 * modelled.
 */
module Output {
  import opened Platform

  datatype Line =
    | Banner                      // About: title, version and copyright
    | UsageText                   // Usage: description, options and examples
    | VersionText                 // "-v": title and version
    | Heading(title: string)      // ColorConsole.PrintAction
    | Target(path: Path)          // the "<path>: " prefix before a verdict
    | NamespaceNote(ns: string)   // "Uses namespace '<ns>'", or for "" "Does not use a particular namespace."
    | SchemaNotFound(path: Path)  // "<path>: not found."
    | SchemaAmbiguous(path: Path) // "<path>: includes more than one potential schema files. ..."
    | SchemaFault                 // an exception message while reading or registering the schema
    | SchemaErrors                // "Schema error(s)."
    | Blank                       // the empty line before the first diagnostic
    | Diag(diagnostic: Diagnostic)// "WARNING: " or "ERROR: " then "line L, pos C, message"
    | FileFault(fault: Fault)     // the exception message of a document that failed to load
    | Ok                          // "OK"
    | PathNotFound(path: Path)    // "'<path>': path not found or no XML found in path."
    | NoXmlFiles                  // "No XML files found."
    | NothingProcessed            // "XML file(s) or XML directory not found."
    | Processed(total: nat)       // "<n> XML file(s) processed."
    | ValidFiles(count: nat)      // "<n> valid XML file(s)."
    | NonValidFiles(count: nat)   // "<n> non valid XML file(s)."

  const NamespaceTitle := "Extracting Namespace:"
  const SchemaTitle := "XML Schema Validation:"
  const FilesTitle := "XML File(s) Validation:"
  const SummaryTitle := "XML Validation Summary:"

  class Console {
    var lines: seq<Line>

    constructor ()
      ensures lines == []
    {
      lines := [];
    }

    method Print(line: Line)
      modifies this
      ensures lines == old(lines) + [line]
    {
      lines := lines + [line];
    }

    method PrintAll(more: seq<Line>)
      modifies this
      ensures lines == old(lines) + more
    {
      for i := 0 to |more|
        invariant lines == old(lines) + more[..i]
      {
        assert more[..i + 1] == more[..i] + [more[i]];
        lines := lines + [more[i]];
      }
      assert more[..|more|] == more;
    }
  }
}
