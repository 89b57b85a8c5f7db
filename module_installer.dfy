/** The module installer wizard (`synara.module.installer.wizard`): it reads module names from
    the first column of a spreadsheet, classifies each against the database's modules, and
    turns the result into an installation log. The spreadsheet is given as the values of its
    first column from the second row down. */
module ModuleInstaller {
  import Text
  import opened InstallationLogs

  /** A cell of the first column: empty, a string, or any other value (a number, a date). */
  datatype Cell = Blank | TextCell(text: string) | OtherValue

  /** The uploaded file: none, a file that cannot be opened as a workbook, or a workbook. */
  datatype Upload = NoFile | Unreadable | Workbook(column: seq<Cell>)

  /** The wizard's `state`: `draft`, `review`. */
  datatype WizardState = WizardDraft | Review

  /** What `action_analyze_file` ends in: one of its two errors, or the review form. */
  datatype AnalyzeOutcome = UploadMissing | ProcessingError | Analyzed

  /** Header captions that are skipped, compared in lower case. */
  const HeaderNames: set<string> :=
    {"technical name", "nombre técnico", "nombre tecnico", "module name", "módulo", "modulo", "name"}

  /** The scan stops at a cell that is empty, not a string, or blank. */
  predicate Stops(c: Cell) {
    !c.TextCell? || Text.Strip(c.text) == []
  }

  predicate IsHeader(name: string) {
    Text.Lower(name) in HeaderNames
  }

  /** A module's status: installed when it exists and its state is `installed`, to install
      when it exists in any other state, missing when no module has the name. `modules` maps
      each module's technical name to its state. */
  function Classify(name: string, modules: map<string, string>): (r: ModuleStatus)
    ensures r == Installed <==> name in modules && modules[name] == "installed"
    ensures r == ToInstall <==> name in modules && modules[name] != "installed"
    ensures r == Missing <==> name !in modules
  {
    if name in modules then (if modules[name] == "installed" then Installed else ToInstall) else Missing
  }

  /** What the row loop makes of one cell: the end of the scan, a header caption to skip, or
      a module name. */
  datatype RowKind = StopRow | HeaderRow | ModuleRow(name: string)

  function Row(c: Cell): (r: RowKind)
    ensures r == StopRow <==> Stops(c)
    ensures r == HeaderRow <==> !Stops(c) && IsHeader(Text.Strip(c.text))
    ensures r.ModuleRow? ==> r.name == Text.Strip(c.text) && r.name != [] && !IsHeader(r.name)
  {
    if Stops(c) then StopRow
    else if IsHeader(Text.Strip(c.text)) then HeaderRow
    else ModuleRow(Text.Strip(c.text))
  }

  function Rows(column: seq<Cell>): (r: seq<RowKind>)
    ensures |r| == |column| && forall i :: 0 <= i < |column| ==> r[i] == Row(column[i])
  {
    seq(|column|, i requires 0 <= i < |column| => Row(column[i]))
  }

  /** The lines collected from the rows, up to the first stop. */
  function Collect(rows: seq<RowKind>, modules: map<string, string>): (r: seq<ModuleLine>)
    ensures |r| <= |rows|
  {
    if rows == [] then []
    else match rows[0]
      case StopRow => []
      case HeaderRow => Collect(rows[1..], modules)
      case ModuleRow(name) => [ModuleLine(name, Classify(name, modules))] + Collect(rows[1..], modules)
  }

  /** The lines the row loop collects from `column`, in sheet order. */
  function ScanColumn(column: seq<Cell>, modules: map<string, string>): (r: seq<ModuleLine>)
    ensures |r| <= |column|
  {
    Collect(Rows(column), modules)
  }

  /** Every collected line names a module (stripped, not blank, not a header caption) and
      carries that module's status. */
  lemma {:induction false} CollectedLinesClassified(rows: seq<RowKind>, modules: map<string, string>)
    requires forall i :: 0 <= i < |rows| && rows[i].ModuleRow? ==>
      rows[i].name != [] && Text.Strip(rows[i].name) == rows[i].name && !IsHeader(rows[i].name)
    ensures forall l :: l in Collect(rows, modules) ==>
      && l.name != [] && Text.Strip(l.name) == l.name && !IsHeader(l.name) && l.status == Classify(l.name, modules)
  {
    if rows != [] && !rows[0].StopRow? {
      CollectedLinesClassified(rows[1..], modules);
    }
  }

  lemma ScannedLinesClassified(column: seq<Cell>, modules: map<string, string>)
    ensures forall l :: l in ScanColumn(column, modules) ==>
      && l.name != [] && Text.Strip(l.name) == l.name && !IsHeader(l.name) && l.status == Classify(l.name, modules)
  {
    var rows := Rows(column);
    forall i | 0 <= i < |rows| && rows[i].ModuleRow?
      ensures rows[i].name != [] && Text.Strip(rows[i].name) == rows[i].name && !IsHeader(rows[i].name)
    {
      Text.StripIdempotent(column[i].text);
    }
    CollectedLinesClassified(rows, modules);
  }

  /** One step of the row loop at row `i`. */
  lemma CollectStep(rows: seq<RowKind>, modules: map<string, string>, i: nat)
    requires i < |rows|
    ensures rows[i] == StopRow ==> Collect(rows[i..], modules) == []
    ensures rows[i] == HeaderRow ==> Collect(rows[i..], modules) == Collect(rows[i + 1..], modules)
    ensures rows[i].ModuleRow? ==>
      Collect(rows[i..], modules) == [ModuleLine(rows[i].name, Classify(rows[i].name, modules))] + Collect(rows[i + 1..], modules)
  {
    assert rows[i..][0] == rows[i] && rows[i..][1..] == rows[i + 1..];
  }

  lemma AppendLinesAssociative(a: seq<ModuleLine>, b: seq<ModuleLine>, c: seq<ModuleLine>)
    ensures (a + b) + c == a + (b + c)
  {
  }

  lemma {:induction false} CollectStopsAt(rows: seq<RowKind>, modules: map<string, string>, k: nat)
    requires k < |rows| && rows[k] == StopRow
    ensures Collect(rows, modules) == Collect(rows[..k], modules)
  {
    if k > 0 && rows[0] != StopRow {
      assert rows[1..][..k - 1] == rows[..k][1..];
      CollectStopsAt(rows[1..], modules, k - 1);
    }
  }

  /** Nothing below the first cell that stops the scan is read. */
  lemma ScanStopsAtFirstBlank(column: seq<Cell>, modules: map<string, string>, k: nat)
    requires k < |column| && Stops(column[k])
    ensures ScanColumn(column, modules) == ScanColumn(column[..k], modules)
  {
    CollectStopsAt(Rows(column), modules, k);
    assert Rows(column[..k]) == Rows(column)[..k];
  }

  lemma {:induction false} CollectInOrder(a: seq<RowKind>, b: seq<RowKind>, modules: map<string, string>)
    requires forall i :: 0 <= i < |a| ==> a[i] != StopRow
    ensures Collect(a + b, modules) == Collect(a, modules) + Collect(b, modules)
  {
    if a != [] {
      assert (a + b)[0] == a[0];
      assert (a + b)[1..] == a[1..] + b;
      CollectInOrder(a[1..], b, modules);
    } else {
      assert a + b == b;
    }
  }

  /** Rows before the first blank are read in sheet order: each contributes its own line, or
      nothing when it is a header caption. */
  lemma ScanInSheetOrder(a: seq<Cell>, b: seq<Cell>, modules: map<string, string>)
    requires forall i :: 0 <= i < |a| ==> !Stops(a[i])
    ensures ScanColumn(a + b, modules) == ScanColumn(a, modules) + ScanColumn(b, modules)
  {
    assert Rows(a + b) == Rows(a) + Rows(b);
    CollectInOrder(Rows(a), Rows(b), modules);
  }

  /** Python's ordering of strings: by code point, a prefix first. */
  predicate NameLe(a: string, b: string)
    decreases |a|
  {
    a == [] || (b != [] && (a[0] < b[0] || (a[0] == b[0] && NameLe(a[1..], b[1..]))))
  }

  lemma {:induction false} NameLeTotal(a: string, b: string)
    ensures NameLe(a, b) || NameLe(b, a)
    decreases |a|
  {
    if a != [] && b != [] && a[0] == b[0] {
      NameLeTotal(a[1..], b[1..]);
    }
  }

  /** The rank of a status in the stored order `installed` < `missing` < `to_install`. */
  function StatusRank(s: ModuleStatus): nat {
    match s
    case Installed => 0
    case Missing => 1
    case ToInstall => 2
  }

  /** The line order `_order = 'status, name'`. */
  predicate LineLe(a: ModuleLine, b: ModuleLine) {
    StatusRank(a.status) < StatusRank(b.status) || (StatusRank(a.status) == StatusRank(b.status) && NameLe(a.name, b.name))
  }

  lemma LineLeTotal(a: ModuleLine, b: ModuleLine)
    ensures LineLe(a, b) || LineLe(b, a)
  {
    NameLeTotal(a.name, b.name);
  }

  predicate Sorted(s: seq<ModuleLine>) {
    forall i :: 0 <= i < |s| - 1 ==> LineLe(s[i], s[i + 1])
  }

  /** `x` placed into the ordered lines `s`, after every line not strictly after it. */
  function Insert(x: ModuleLine, s: seq<ModuleLine>): (r: seq<ModuleLine>)
    ensures |r| == |s| + 1 && (r[0] == x || (s != [] && r[0] == s[0]))
    ensures multiset(r) == multiset(s) + multiset{x}
  {
    if s == [] then [x]
    else if !LineLe(s[0], x) then [x] + s
    else
      assert s == [s[0]] + s[1..];
      [s[0]] + Insert(x, s[1..])
  }

  lemma {:induction false} InsertKeepsSorted(x: ModuleLine, s: seq<ModuleLine>)
    requires Sorted(s)
    ensures Sorted(Insert(x, s))
  {
    if s != [] {
      if !LineLe(s[0], x) {
        LineLeTotal(s[0], x);
      } else {
        InsertKeepsSorted(x, s[1..]);
        var r := Insert(x, s);
        var t := Insert(x, s[1..]);
        assert r == [s[0]] + t;
        forall i | 0 <= i < |r| - 1
          ensures LineLe(r[i], r[i + 1])
        {
          if i > 0 {
            assert r[i] == t[i - 1] && r[i + 1] == t[i];
          }
        }
      }
    }
  }

  /** The wizard's lines as `line_ids` reads them: sorted by status, then name. */
  function ReadOrder(lines: seq<ModuleLine>): (r: seq<ModuleLine>)
    ensures multiset(r) == multiset(lines)
  {
    if lines == [] then []
    else
      var n := |lines| - 1;
      assert lines == lines[..n] + [lines[n]];
      Insert(lines[n], ReadOrder(lines[..n]))
  }

  lemma {:induction false} ReadOrderSorted(lines: seq<ModuleLine>)
    ensures Sorted(ReadOrder(lines))
  {
    if lines != [] {
      var n := |lines| - 1;
      ReadOrderSorted(lines[..n]);
      InsertKeepsSorted(lines[n], ReadOrder(lines[..n]));
    }
  }

  class InstallerWizard {
    var state: WizardState
    /** The wizard's lines, in the order they were created. */
    var lines: seq<ModuleLine>

    /** `action_analyze_file`: without a file, or with a file that is not a workbook, an error
        and nothing changes; otherwise the old lines are replaced by the scanned ones and the
        wizard moves to review. */
    method AnalyzeFile(upload: Upload, modules: map<string, string>) returns (r: AnalyzeOutcome)
      modifies this
      ensures upload.NoFile? ==> r == UploadMissing && state == old(state) && lines == old(lines)
      ensures upload.Unreadable? ==> r == ProcessingError && state == old(state) && lines == old(lines)
      ensures upload.Workbook? ==> r == Analyzed && state == Review && lines == ScanColumn(upload.column, modules)
    {
      if upload.NoFile? {
        return UploadMissing;
      }
      if upload.Unreadable? {
        return ProcessingError;
      }
      var column := upload.column;
      ghost var rows := Rows(column);
      var collected: seq<ModuleLine> := [];
      var i := 0;
      while i < |column|
        invariant 0 <= i <= |column|
        invariant collected + Collect(rows[i..], modules) == ScanColumn(column, modules)
      {
        CollectStep(rows, modules, i);
        var cell := column[i];
        if !cell.TextCell? || Text.Strip(cell.text) == [] {
          assert collected == ScanColumn(column, modules);
          break;
        }
        var name := Text.Strip(cell.text);
        if IsHeader(name) {
          i := i + 1;
          continue;
        }
        var line := ModuleLine(name, Classify(name, modules));
        AppendLinesAssociative(collected, [line], Collect(rows[i + 1..], modules));
        collected := collected + [line];
        i := i + 1;
      }
      if i == |column| {
        assert rows[i..] == [];
      }
      lines := collected;
      state := Review;
      r := Analyzed;
    }

    /** `action_generate_report`: a new log holding a copy of each line, in the order the
        lines are read. */
    method GenerateReport() returns (log: InstallationLog)
      ensures fresh(log) && log.state == LogDraft && log.lines == ReadOrder(lines)
      ensures Sorted(log.lines) && multiset(log.lines) == multiset(lines)
    {
      var read := ReadOrder(lines);
      ReadOrderSorted(lines);
      var copied: seq<ModuleLine> := [];
      var i := 0;
      while i < |read|
        invariant 0 <= i <= |read|
        invariant copied == read[..i]
      {
        assert read[..i + 1] == read[..i] + [read[i]];
        copied := copied + [ModuleLine(read[i].name, read[i].status)];
        i := i + 1;
      }
      assert read[..i] == read;
      log := new InstallationLog(copied);
    }
  }
}
