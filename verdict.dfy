/**
 * What validating documents means, independently of the objects that do it:
 * the per-document verdict, the lines printed for a document, the tally over a
 * run and the summary. The validator class, Validation.Validator, which
 * both versions of the tool run, is proved against these definitions.
 */
module Verdict {
  import opened Platform
  import opened Output

  /**
   * `_error` at the end of a document. The validation handler sets it for a
   * diagnostic of either severity and every catch block sets it, so it is
   * raised by any diagnostic or any exception. Nothing sets `_warning`.
   */
  predicate Flagged(d: Load) {
    |d.diagnostics| > 0 || d.thrown.Some?
  }

  /** One diagnostic line per diagnostic, in the order the handler received them. */
  function Diags(ds: seq<Diagnostic>): seq<Line> {
    if ds == [] then [] else Diags(ds[..|ds| - 1]) + [Diag(ds[|ds| - 1])]
  }

  lemma {:induction false} DiagsAt(ds: seq<Diagnostic>)
    ensures |Diags(ds)| == |ds|
    ensures forall k :: 0 <= k < |ds| ==> Diags(ds)[k] == Diag(ds[k])
  {
    if ds != [] {
      DiagsAt(ds[..|ds| - 1]);
    }
  }

  /**
   * What the validation handler prints for the diagnostics ds when `_error`
   * was `raised` before the first of them: a blank line ahead of the first
   * diagnostic only while `_error` was still clear, then one line each.
   */
  function Echo(raised: bool, ds: seq<Diagnostic>): seq<Line> {
    if ds == [] then [] else (if raised then [] else [Blank]) + Diags(ds)
  }

  /** The handler's effect on one more diagnostic: the step a loop over the diagnostics takes. */
  lemma EchoStep(raised: bool, ds: seq<Diagnostic>, d: Diagnostic)
    ensures Echo(raised, ds + [d]) == Echo(raised, ds) + (if !raised && ds == [] then [Blank] else []) + [Diag(d)]
  {
    var s := ds + [d];
    assert s[..|s| - 1] == ds;
    assert Diags(s) == Diags(ds) + [Diag(d)];
  }

  /** The handler prints only blank and diagnostic lines, and a diagnostic line for each diagnostic. */
  lemma EchoLines(raised: bool, ds: seq<Diagnostic>)
    ensures forall l :: l in Echo(raised, ds) ==> l == Blank || l.Diag?
    ensures forall k :: 0 <= k < |ds| ==> Diag(ds[k]) in Echo(raised, ds)
  {
    DiagsAt(ds);
    if ds != [] {
      var pre := if raised then [] else [Blank];
      assert Echo(raised, ds) == pre + Diags(ds);
      forall l | l in Diags(ds) ensures l.Diag? {
        var i :| 0 <= i < |ds| && Diags(ds)[i] == l;
      }
      forall k | 0 <= k < |ds| ensures Diag(ds[k]) in Diags(ds) {
        assert Diags(ds)[k] == Diag(ds[k]);
      }
    }
  }

  /** At most one blank line, and exactly one when the diagnostics start while `_error` is clear. */
  lemma EchoBlanks(raised: bool, ds: seq<Diagnostic>)
    ensures multiset(Echo(raised, ds))[Blank] == if !raised && |ds| > 0 then 1 else 0
  {
    DiagsAt(ds);
    assert Blank !in Diags(ds);
  }

  /** The exception message line of a document, if its load threw. */
  function FaultLines(thrown: Option<Fault>): seq<Line> {
    match thrown
    case Some(f) => [FileFault(f)]
    case None => []
  }

  /** Everything ValidateXmlFile prints for one document. */
  function FileLines(path: Path, d: Load): seq<Line> {
    [Target(path)] + Echo(false, d.diagnostics) + FaultLines(d.thrown) + (if Flagged(d) then [] else [Ok])
  }

  /** "OK" is printed, once, exactly when no diagnostic and no exception occurred. */
  lemma OkExactlyWhenClean(path: Path, d: Load)
    ensures Ok in FileLines(path, d) <==> !Flagged(d)
    ensures multiset(FileLines(path, d))[Ok] == if Flagged(d) then 0 else 1
  {
    EchoLines(false, d.diagnostics);
    assert Ok !in Echo(false, d.diagnostics);
    var lines := FileLines(path, d);
    assert lines == [Target(path)] + Echo(false, d.diagnostics) + FaultLines(d.thrown) + (if Flagged(d) then [] else [Ok]);
  }

  /**
   * A document's lines hold one blank line exactly when it had a diagnostic,
   * and that line comes right after the path and right before the first
   * diagnostic: later diagnostics add none.
   */
  lemma BlankBeforeFirstDiagnostic(path: Path, d: Load)
    ensures multiset(FileLines(path, d))[Blank] == if |d.diagnostics| > 0 then 1 else 0
    ensures |d.diagnostics| > 0 ==> FileLines(path, d)[1] == Blank && FileLines(path, d)[2] == Diag(d.diagnostics[0])
  {
    EchoBlanks(false, d.diagnostics);
    BlanksFromEcho(path, d);
    if |d.diagnostics| > 0 {
      EchoStart(d.diagnostics);
      assert FileLines(path, d) == [Target(path)] + Echo(false, d.diagnostics) + FaultLines(d.thrown) + (if Flagged(d) then [] else [Ok]);
    }
  }

  /** With `_error` clear, the echo of some diagnostics opens with the blank line and then the first of them. */
  lemma EchoStart(ds: seq<Diagnostic>)
    requires |ds| > 0
    ensures |Echo(false, ds)| >= 2 && Echo(false, ds)[0] == Blank && Echo(false, ds)[1] == Diag(ds[0])
  {
    DiagsAt(ds);
  }

  /** Only the handler's echo of a document's diagnostics contributes blank lines. */
  lemma BlanksFromEcho(path: Path, d: Load)
    ensures multiset(FileLines(path, d))[Blank] == multiset(Echo(false, d.diagnostics))[Blank]
  {
    CountWithin(Target(path), Echo(false, d.diagnostics), FaultLines(d.thrown), if Flagged(d) then [] else [Ok], Blank);
  }

  /** A line other than the head and absent from the last two parts is counted in the middle part alone. */
  lemma CountWithin(head: Line, s: seq<Line>, t: seq<Line>, u: seq<Line>, x: Line)
    requires x != head && x !in t && x !in u
    ensures multiset([head] + s + t + u)[x] == multiset(s)[x]
  {
  }

  /** Every diagnostic of a document is printed, and so is its exception. */
  lemma EveryIssueReported(path: Path, d: Load)
    ensures forall k :: 0 <= k < |d.diagnostics| ==> Diag(d.diagnostics[k]) in FileLines(path, d)
    ensures d.thrown.Some? ==> FileFault(d.thrown.value) in FileLines(path, d)
  {
    EchoLines(false, d.diagnostics);
    var lines := FileLines(path, d);
    assert lines == [Target(path)] + Echo(false, d.diagnostics) + FaultLines(d.thrown) + (if Flagged(d) then [] else [Ok]);
    if d.thrown.Some? {
      assert lines[1 + |Echo(false, d.diagnostics)|] == FileFault(d.thrown.value);
    }
  }

  datatype Counts = Counts(valid: nat, nonValid: nat)

  /** Counters kept on top of earlier ones. */
  function Add(a: Counts, b: Counts): Counts {
    Counts(a.valid + b.valid, a.nonValid + b.nonValid)
  }

  /** The counters a run of documents leaves, starting from zero: one bump per document. */
  function Tally(ds: seq<Load>): (c: Counts)
    ensures c.valid + c.nonValid == |ds|
  {
    if ds == [] then Counts(0, 0)
    else
      var c := Tally(ds[..|ds| - 1]);
      if Flagged(ds[|ds| - 1]) then Counts(c.valid, c.nonValid + 1) else Counts(c.valid + 1, c.nonValid)
  }

  /** Tallying two runs one after the other adds their counters. */
  lemma {:induction false} TallyAppend(a: seq<Load>, b: seq<Load>)
    ensures Tally(a + b).valid == Tally(a).valid + Tally(b).valid
    ensures Tally(a + b).nonValid == Tally(a).nonValid + Tally(b).nonValid
  {
    if b != [] {
      var b', s := b[..|b| - 1], a + b;
      assert s[..|s| - 1] == a + b';
      assert s[|s| - 1] == b[|b| - 1];
      TallyAppend(a, b');
      var c, cb := Tally(a + b'), Tally(b');
      assert Tally(s) == if Flagged(b[|b| - 1]) then Counts(c.valid, c.nonValid + 1) else Counts(c.valid + 1, c.nonValid);
      assert Tally(b) == if Flagged(b[|b| - 1]) then Counts(cb.valid, cb.nonValid + 1) else Counts(cb.valid + 1, cb.nonValid);
    } else {
      assert a + b == a;
    }
  }

  /** The non-valid counter is zero exactly when no document was flagged; the valid one, when all were. */
  lemma {:induction false} TallyZero(ds: seq<Load>)
    ensures Tally(ds).nonValid == 0 <==> forall k :: 0 <= k < |ds| ==> !Flagged(ds[k])
    ensures Tally(ds).valid == 0 <==> forall k :: 0 <= k < |ds| ==> Flagged(ds[k])
  {
    if ds != [] {
      var pre := ds[..|ds| - 1];
      TallyZero(pre);
      assert forall k :: 0 <= k < |pre| ==> pre[k] == ds[k];
    }
  }

  /** The documents ValidateXmlFiles opens: the given paths that exist, in the given order. */
  function Opened(fs: FileSystem, paths: seq<Path>): (r: seq<Path>)
    ensures |r| <= |paths|
    ensures forall p :: p in r <==> p in paths && p in fs.files
  {
    if paths == [] then []
    else
      var last := paths[|paths| - 1];
      assert paths == paths[..|paths| - 1] + [last];
      Opened(fs, paths[..|paths| - 1]) + (if last in fs.files then [last] else [])
  }

  /** Opening is done path by path: the paths of a concatenation are opened in order. */
  lemma {:induction false} OpenedAppend(fs: FileSystem, a: seq<Path>, b: seq<Path>)
    ensures Opened(fs, a + b) == Opened(fs, a) + Opened(fs, b)
  {
    if b != [] {
      var b', s := b[..|b| - 1], a + b;
      var last := b[|b| - 1];
      assert s[..|s| - 1] == a + b';
      assert s[|s| - 1] == last;
      OpenedAppend(fs, a, b');
      var tail := if last in fs.files then [last] else [];
      assert Opened(fs, s) == Opened(fs, a + b') + tail;
      assert Opened(fs, b) == Opened(fs, b') + tail;
    } else {
      assert a + b == a;
    }
  }

  /** The load outcomes of the given paths, in order. */
  function Loads(lib: XmlLibrary, paths: seq<Path>): seq<Load> {
    if paths == [] then [] else Loads(lib, paths[..|paths| - 1]) + [lib.load(paths[|paths| - 1])]
  }

  /** The counters after one more path: a missing path leaves them alone, a document bumps one of them. */
  function Bump(fs: FileSystem, lib: XmlLibrary, c: Counts, p: Path): Counts {
    if p !in fs.files then c
    else if Flagged(lib.load(p)) then Counts(c.valid, c.nonValid + 1)
    else Counts(c.valid + 1, c.nonValid)
  }

  /** The counters ValidateXmlFiles adds for its paths, path by path. */
  function BatchTally(fs: FileSystem, lib: XmlLibrary, paths: seq<Path>): Counts {
    if paths == [] then Counts(0, 0)
    else Bump(fs, lib, BatchTally(fs, lib, paths[..|paths| - 1]), paths[|paths| - 1])
  }

  /** What ValidateXmlFiles prints for one path: the document's lines if it exists, nothing otherwise. */
  function Visited(fs: FileSystem, lib: XmlLibrary, p: Path): seq<Line> {
    if p in fs.files then FileLines(p, lib.load(p)) else []
  }

  /** Everything ValidateXmlFiles prints for its paths (missing paths print nothing). */
  function BatchLines(fs: FileSystem, lib: XmlLibrary, paths: seq<Path>): seq<Line> {
    if paths == [] then []
    else BatchLines(fs, lib, paths[..|paths| - 1]) + Visited(fs, lib, paths[|paths| - 1])
  }

  /**
   * Two libraries that load every existing document alike count and print
   * the same for any paths: the libraries are only consulted on documents.
   */
  lemma {:induction false} BatchAgree(fs: FileSystem, lib: XmlLibrary, other: XmlLibrary, paths: seq<Path>)
    requires forall p :: p in fs.files ==> lib.load(p) == other.load(p)
    ensures BatchTally(fs, lib, paths) == BatchTally(fs, other, paths)
    ensures BatchLines(fs, lib, paths) == BatchLines(fs, other, paths)
  {
    if paths != [] {
      BatchAgree(fs, lib, other, paths[..|paths| - 1]);
    }
  }

  /**
   * The path-by-path counters are the tally of the documents actually
   * opened: skipping missing paths and tallying what remains gives the same
   * counters.
   */
  lemma {:induction false} BatchTallyIsTally(fs: FileSystem, lib: XmlLibrary, paths: seq<Path>)
    ensures BatchTally(fs, lib, paths) == Tally(Loads(lib, Opened(fs, paths)))
  {
    if paths != [] {
      var pre, p := paths[..|paths| - 1], paths[|paths| - 1];
      BatchTallyIsTally(fs, lib, pre);
      OpenedLast(fs, paths);
      if p in fs.files {
        LoadsLast(lib, Opened(fs, pre), p);
        TallyLast(Loads(lib, Opened(fs, pre)), lib.load(p));
      } else {
        assert Opened(fs, pre) + [] == Opened(fs, pre);
      }
    }
  }

  /** The step of Opened at a non-empty list of paths. */
  lemma OpenedLast(fs: FileSystem, paths: seq<Path>)
    requires paths != []
    ensures var p := paths[|paths| - 1];
      Opened(fs, paths) == Opened(fs, paths[..|paths| - 1]) + if p in fs.files then [p] else []
  {
  }

  /** Loading one more path appends its outcome. */
  lemma LoadsLast(lib: XmlLibrary, o: seq<Path>, p: Path)
    ensures Loads(lib, o + [p]) == Loads(lib, o) + [lib.load(p)]
  {
    assert (o + [p])[..|o + [p]| - 1] == o;
  }

  /** Tallying one more outcome bumps one counter. */
  lemma TallyLast(ls: seq<Load>, l: Load)
    ensures Tally(ls + [l]) ==
      if Flagged(l) then Counts(Tally(ls).valid, Tally(ls).nonValid + 1) else Counts(Tally(ls).valid + 1, Tally(ls).nonValid)
  {
    assert (ls + [l])[..|ls + [l]| - 1] == ls;
    assert (ls + [l])[|ls + [l]| - 1] == l;
  }

  /** The batch counters add up to the number of documents actually opened. */
  lemma BatchTallyTotal(fs: FileSystem, lib: XmlLibrary, paths: seq<Path>)
    ensures BatchTally(fs, lib, paths).valid + BatchTally(fs, lib, paths).nonValid == |Opened(fs, paths)|
  {
  }

  lemma {:induction false} LoadsLength(lib: XmlLibrary, paths: seq<Path>)
    ensures |Loads(lib, paths)| == |paths|
    ensures forall k :: 0 <= k < |paths| ==> Loads(lib, paths)[k] == lib.load(paths[k])
  {
    if paths != [] {
      LoadsLength(lib, paths[..|paths| - 1]);
    }
  }

  /**
   * A batch's non-valid counter is the number of opened documents that were
   * flagged, so it is zero exactly when every opened document is clean.
   */
  lemma BatchClean(fs: FileSystem, lib: XmlLibrary, paths: seq<Path>)
    ensures BatchTally(fs, lib, paths).nonValid == Tally(Loads(lib, Opened(fs, paths))).nonValid
    ensures BatchTally(fs, lib, paths).nonValid == 0 <==> forall p :: p in Opened(fs, paths) ==> !Flagged(lib.load(p))
  {
    var docs := Opened(fs, paths);
    BatchTallyIsTally(fs, lib, paths);
    TallyZero(Loads(lib, docs));
    LoadsLength(lib, docs);
    if forall p :: p in docs ==> !Flagged(lib.load(p)) {
      forall k | 0 <= k < |docs| ensures !Flagged(Loads(lib, docs)[k]) {
        assert docs[k] in docs;
      }
    }
    if Tally(Loads(lib, docs)).nonValid == 0 {
      forall p | p in docs ensures !Flagged(lib.load(p)) {
        var k :| 0 <= k < |docs| && docs[k] == p;
      }
    }
  }

  /** The step a loop over a run takes at index i: the counters and lines of one more path. */
  lemma BatchStepAt(fs: FileSystem, lib: XmlLibrary, paths: seq<Path>, i: nat)
    requires i < |paths|
    ensures BatchTally(fs, lib, paths[..i + 1]) == Bump(fs, lib, BatchTally(fs, lib, paths[..i]), paths[i])
    ensures BatchLines(fs, lib, paths[..i + 1]) == BatchLines(fs, lib, paths[..i]) + Visited(fs, lib, paths[i])
  {
    assert paths[..i + 1][..i] == paths[..i];
  }

  /** The whole run as the prefix a loop over it ends with. */
  lemma BatchWhole(fs: FileSystem, lib: XmlLibrary, paths: seq<Path>)
    ensures BatchTally(fs, lib, paths[..|paths|]) == BatchTally(fs, lib, paths)
    ensures BatchLines(fs, lib, paths[..|paths|]) == BatchLines(fs, lib, paths)
  {
    assert paths[..|paths|] == paths;
  }

  /** The summary PrintReport prints for the final counters. */
  function Summary(c: Counts): (r: seq<Line>)
    ensures |r| >= 2 && r[0] == Heading(SummaryTitle)
    ensures NothingProcessed in r <==> c.valid + c.nonValid == 0
    ensures forall n: nat :: Processed(n) in r <==> n == c.valid + c.nonValid && n > 0
    ensures forall n: nat :: ValidFiles(n) in r <==> n == c.valid && n > 0
    ensures forall n: nat :: NonValidFiles(n) in r <==> n == c.nonValid && n > 0
  {
    var total := c.valid + c.nonValid;
    [Heading(SummaryTitle)] +
      if total == 0 then [NothingProcessed]
      else [Processed(total)] + (if c.valid > 0 then [ValidFiles(c.valid)] else [])
                              + (if c.nonValid > 0 then [NonValidFiles(c.nonValid)] else [])
  }
}
