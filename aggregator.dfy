/** The file loop of `main` (finances.py:98-144): every statement file is
    assigned an account from its path, dispatched on the file type found
    in its name, and the frames collected along the way are concatenated
    into the aggregated ledger. The directory walk is given as the sequence
    of files it yields, each with what reading it would produce. */
module Aggregator {
  import opened Ledger
  import opened Strings
  import opened Accounts
  import opened LineFinders
  import opened WellsFargo
  import opened CsvStatements

  /** The FileType enumeration: substrings looked for in a file name. */
  const PdfType: string := ".pdf"
  const CsvType: string := ".csv"

  /** A file found by the directory walk: the directory it was found in,
      its name, the text the PDF reader extracts from it, and the rows
      `read_csv` gives under the Chase and the First Republic layouts. */
  datatype StatementFile = StatementFile(
    dirpath: string,
    name: string,
    pdfText: string,
    chaseRows: seq<ChaseRow>,
    firstRepublicRows: seq<FirstRepublicRow>)

  /** `os.path.join(a, b)` on POSIX: an absolute `b` replaces `a`; otherwise a
      slash is put between them unless `a` is empty or already ends in one. */
  function Join(a: string, b: string): (p: string)
    ensures |b| <= |p| && p[|p| - |b|..] == b
    ensures (b == [] || b[0] != '/') ==> |a| <= |p| && p[..|a|] == a
  {
    if |b| > 0 && b[0] == '/' then b
    else if a == [] || a[|a| - 1] == '/' then a + b
    else a + "/" + b
  }

  /** The path `find_account` is given. */
  function PathOf(f: StatementFile): string {
    Join(f.dirpath, f.name)
  }

  /** The frames a PDF of the given account adds. */
  function PdfFrames(account: Account, text: string): Outcome {
    match account
    case WellsFargoChecking =>
      var rows :- ChStatement(text, account);
      Ok([rows])
    case WellsFargoCreditCard => Ok([CcStatement(text, account)])
    case _ => Ok([])
  }

  /** The frames a CSV of the given account adds: only the Chase frame is
      appended; the First Republic frames are built and dropped. */
  function CsvFrames(account: Account, rows: seq<ChaseRow>): seq<seq<LedgerRow>> {
    if account == ChaseCreditCard then [ChaseFrame(rows, account)] else []
  }

  /** What a file adds to the list of frames, or the exception it raises. */
  type Outcome = Result<seq<seq<LedgerRow>>>

  /** The loop body of `main` for one file: the account is looked up first,
      then the PDF branch runs, then the CSV branch. */
  function FileFrames(f: StatementFile): Outcome {
    var account :- AccountOf(PathOf(f));
    var pdf :- if Contains(f.name, PdfType) then PdfFrames(account, f.pdfText) else Ok([]);
    var csv := if Contains(f.name, CsvType) then CsvFrames(account, f.chaseRows) else [];
    Ok(pdf + csv)
  }

  /** The list of frames after walking `files` with the loop body `step`;
      the first exception ends the walk. */
  function Walk(files: seq<StatementFile>, step: StatementFile -> Outcome): Outcome {
    if files == [] then Ok([])
    else
      var before :- Walk(files[..|files| - 1], step);
      var added :- step(files[|files| - 1]);
      Ok(before + added)
  }

  /** The rows of the frames, one frame after the other. */
  function Flatten(frames: seq<seq<LedgerRow>>): seq<LedgerRow> {
    if frames == [] then [] else Flatten(frames[..|frames| - 1]) + frames[|frames| - 1]
  }

  /** `pd.concat` on the collected list: an empty list raises. */
  function Concatenated(frames: Outcome): Result<seq<LedgerRow>> {
    var list :- frames;
    if list == [] then Err(NothingToConcatenate) else Ok(Flatten(list))
  }

  /** The aggregated ledger `main` writes out, or the exception that ends
      the run. */
  function Aggregated(files: seq<StatementFile>): Result<seq<LedgerRow>> {
    Concatenated(Walk(files, FileFrames))
  }

  // ----------------------------------------------------------- structure

  /** Concatenation keeps the frames' order. */
  lemma {:induction false} FlattenAppend(a: seq<seq<LedgerRow>>, b: seq<seq<LedgerRow>>)
    ensures Flatten(a + b) == Flatten(a) + Flatten(b)
    decreases |b|
  {
    if b == [] {
      assert a + b == a;
    } else {
      var init, last := b[..|b| - 1], b[|b| - 1];
      var c := a + b;
      assert c[..|c| - 1] == a + init;
      assert c[|c| - 1] == last;
      FlattenAppend(a, init);
      var x, y := Flatten(a), Flatten(init);
      assert Flatten(c) == x + y + last;
      assert x + y + last == x + (y + last);
    }
  }

  /** Walking two groups of files is walking the first and then the second:
      frames come in walk order, and the first exception ends the walk. */
  lemma {:induction false} WalkAppend(a: seq<StatementFile>, b: seq<StatementFile>, step: StatementFile -> Outcome)
    ensures Walk(a + b, step) == (
      match Walk(a, step)
      case Err(e) => Err(e)
      case Ok(x) =>
        match Walk(b, step)
        case Err(e) => Err(e)
        case Ok(y) => Ok(x + y))
    decreases |b|
  {
    if b == [] {
      assert a + b == a;
      if Walk(a, step).Ok? {
        assert Walk(a, step).value + [] == Walk(a, step).value;
      }
    } else {
      var init := b[..|b| - 1];
      assert (a + b)[..|a + b| - 1] == a + init;
      assert (a + b)[|a + b| - 1] == b[|b| - 1];
      WalkAppend(a, init, step);
      if Walk(a, step).Ok? && Walk(init, step).Ok? && step(b[|b| - 1]).Ok? {
        var x, y, z := Walk(a, step).value, Walk(init, step).value, step(b[|b| - 1]).value;
        assert x + y + z == x + (y + z);
      }
    }
  }

  /** One more file: the walk so far followed by that file's step. */
  lemma WalkStep(files: seq<StatementFile>, i: nat, step: StatementFile -> Outcome)
    requires i < |files| && Walk(files[..i], step).Ok? && step(files[i]).Ok?
    ensures Walk(files[..i + 1], step) == Ok(Walk(files[..i], step).value + step(files[i]).value)
  {
    assert files[..i + 1][..i] == files[..i];
  }

  /** An exception from file `i`, after the earlier files went through, ends
      the whole walk with that exception. */
  lemma WalkAbort(files: seq<StatementFile>, i: nat, step: StatementFile -> Outcome)
    requires i < |files| && Walk(files[..i], step).Ok? && step(files[i]).Err?
    ensures Walk(files, step) == Err(step(files[i]).failure)
  {
    assert files[..i + 1][..i] == files[..i];
    assert files == files[..i + 1] + files[i + 1..];
    WalkAppend(files[..i + 1], files[i + 1..], step);
  }

  /** The walk fails exactly when some file's step raises, and collects no
      frame exactly when every step adds none. */
  lemma {:induction false} WalkOutcome(files: seq<StatementFile>, step: StatementFile -> Outcome)
    ensures Walk(files, step).Err? <==> exists i :: 0 <= i < |files| && step(files[i]).Err?
    ensures Walk(files, step) == Ok([]) <==> forall i :: 0 <= i < |files| ==> step(files[i]) == Ok([])
    decreases |files|
  {
    if files != [] {
      var init := files[..|files| - 1];
      WalkOutcome(init, step);
      assert forall i :: 0 <= i < |init| ==> init[i] == files[i];
      if exists i :: 0 <= i < |files| && step(files[i]).Err? {
        var i :| 0 <= i < |files| && step(files[i]).Err?;
        if i < |init| {
          assert step(init[i]).Err?;
        }
      }
      if Walk(files, step) == Ok([]) {
        assert Walk(init, step) == Ok([]);
      }
    }
  }

  /** A file whose step adds no frame can be dropped from the walk without
      changing the outcome. */
  lemma WalkDropSilent(a: seq<StatementFile>, f: StatementFile, b: seq<StatementFile>, step: StatementFile -> Outcome)
    requires step(f) == Ok([])
    ensures Walk(a + [f] + b, step) == Walk(a + b, step)
  {
    WalkAppend(a + [f], b, step);
    WalkAppend(a, [f], step);
    assert [f][..0] == [];
    var none: seq<seq<LedgerRow>> := [];
    assert Walk([f][..0], step) == Ok(none);
    assert none + none == none;
    assert Walk([f], step) == Ok(none);
    WalkAppend(a, b, step);
    if Walk(a, step).Ok? {
      assert Walk(a, step).value + [] == Walk(a, step).value;
    }
  }

  /** `main` raises exactly when some file raises or no file adds a frame;
      an empty walk raises. */
  lemma AggregatedOutcome(files: seq<StatementFile>)
    ensures Aggregated(files).Err? <==>
      (exists i :: 0 <= i < |files| && FileFrames(files[i]).Err?)
      || forall i :: 0 <= i < |files| ==> FileFrames(files[i]) == Ok([])
    ensures Aggregated([]) == Err(NothingToConcatenate)
  {
    WalkOutcome(files, FileFrames);
  }

  /** Two successful runs over consecutive groups of files give the rows of
      the first run followed by those of the second. */
  lemma AggregatedAppend(a: seq<StatementFile>, b: seq<StatementFile>)
    requires Aggregated(a).Ok? && Aggregated(b).Ok?
    ensures Aggregated(a + b) == Ok(Aggregated(a).value + Aggregated(b).value)
  {
    WalkAppend(a, b, FileFrames);
    FlattenAppend(Walk(a, FileFrames).value, Walk(b, FileFrames).value);
  }

  /** Dropping a file that adds no frame leaves the ledger as it was. */
  lemma AggregatedDropSilent(a: seq<StatementFile>, f: StatementFile, b: seq<StatementFile>)
    requires FileFrames(f) == Ok([])
    ensures Aggregated(a + [f] + b) == Aggregated(a + b)
  {
    WalkDropSilent(a, f, b, FileFrames);
  }

  // ------------------------------------------------------------ dispatch

  /** A path no account token occurs in ends the run with the lookup's
      exception, before anything of the file is read. */
  lemma UnknownAccountRaises(f: StatementFile)
    requires forall b :: !Contains(PathOf(f), Token(b))
    ensures FileFrames(f) == Err(NoAccountFound(PathOf(f)))
  {
    AccountOfIsFirstMatch(PathOf(f));
  }

  /** First Republic files never add a frame: their transformed frames are
      built and dropped. */
  lemma FirstRepublicAddsNothing(f: StatementFile)
    requires FirstRepublicFile(f)
    ensures FileFrames(f) == Ok([])
  {
    var none: seq<seq<LedgerRow>> := [];
    assert none + none == none;
  }

  /** A Chase file whose name holds ".csv" adds exactly its frame, whether or
      not the name also holds ".pdf": the PDF branch adds nothing for the
      Chase account. */
  lemma ChaseCsvAddsItsFrame(f: StatementFile)
    requires AccountOf(PathOf(f)) == Ok(ChaseCreditCard)
    requires Contains(f.name, CsvType)
    ensures FileFrames(f) == Ok([ChaseFrame(f.chaseRows, ChaseCreditCard)])
  {
    assert [] + [ChaseFrame(f.chaseRows, ChaseCreditCard)] == [ChaseFrame(f.chaseRows, ChaseCreditCard)];
  }

  /** A PDF of an account other than the Chase card adds what its parser
      gives: the CSV branch adds nothing for it. */
  lemma PdfFileAddsItsParse(f: StatementFile, account: Account)
    requires AccountOf(PathOf(f)) == Ok(account) && account != ChaseCreditCard
    requires Contains(f.name, PdfType)
    ensures FileFrames(f) == PdfFrames(account, f.pdfText)
  {
    var pdf := PdfFrames(account, f.pdfText);
    if pdf.Ok? {
      assert pdf.value + [] == pdf.value;
    }
  }

  /** A Wells Fargo credit card PDF adds its parsed frame and never raises. */
  lemma CreditCardPdfAddsItsFrame(f: StatementFile)
    requires AccountOf(PathOf(f)) == Ok(WellsFargoCreditCard) && Contains(f.name, PdfType)
    ensures FileFrames(f) == Ok([CcStatement(f.pdfText, WellsFargoCreditCard)])
  {
    PdfFileAddsItsParse(f, WellsFargoCreditCard);
  }

  /** A Wells Fargo checking PDF raises when its text holds a digit, a slash
      and a digit anywhere, and otherwise adds one empty frame. */
  lemma CheckingPdfOutcome(f: StatementFile)
    requires AccountOf(PathOf(f)) == Ok(WellsFargoChecking) && Contains(f.name, PdfType)
    ensures FileFrames(f).Err? <==> exists i: nat :: DigitSlashDigitAt(f.pdfText, i)
    ensures FileFrames(f).Ok? ==> FileFrames(f).value == [[]]
  {
    PdfFileAddsItsParse(f, WellsFargoChecking);
    ChStatementFailsOnAnyDate(f.pdfText, WellsFargoChecking);
  }

  /** A file whose name names no file type adds nothing, whatever its path. */
  lemma UntypedFileAddsNothing(f: StatementFile)
    requires AccountOf(PathOf(f)).Ok?
    requires !Contains(f.name, PdfType) && !Contains(f.name, CsvType)
    ensures FileFrames(f) == Ok([])
  {
    var none: seq<seq<LedgerRow>> := [];
    assert none + none == none;
  }

  // ------------------------------------------------------ what is written

  /** Every row of the frames is tagged CHASE_CREDIT_CARD or
      WELLS_FARGO_CREDIT_CARD. */
  predicate CardRows(frames: seq<seq<LedgerRow>>) {
    forall i, j :: 0 <= i < |frames| && 0 <= j < |frames[i]| ==>
      frames[i][j].account == Name(ChaseCreditCard) || frames[i][j].account == Name(WellsFargoCreditCard)
  }

  /** Frames of credit card rows put together are frames of credit card rows. */
  lemma CardRowsAppend(a: seq<seq<LedgerRow>>, b: seq<seq<LedgerRow>>)
    requires CardRows(a) && CardRows(b)
    ensures CardRows(a + b)
  {
    var all: seq<seq<LedgerRow>> := a + b;
    forall i: int, j: int | 0 <= i < |all| && 0 <= j < |all[i]|
      ensures all[i][j].account == Name(ChaseCreditCard) || all[i][j].account == Name(WellsFargoCreditCard)
    {
      if i < |a| {
        assert all[i] == a[i];
      } else {
        assert all[i] == b[i - |a|];
      }
    }
  }

  /** The Wells Fargo credit card frame is tagged with its account. */
  lemma CreditCardFrameIsTagged(text: string)
    ensures CardRows([CcStatement(text, WellsFargoCreditCard)])
  {
    var rows := CcStatement(text, WellsFargoCreditCard);
    forall j | 0 <= j < |rows| ensures rows[j].account == Name(WellsFargoCreditCard) {
      CcStatementRecordAt(text, WellsFargoCreditCard, j);
    }
  }

  /** A PDF adds only credit card rows: a checking frame is always empty. */
  lemma PdfRowsAreCardRows(account: Account, text: string)
    requires PdfFrames(account, text).Ok?
    ensures CardRows(PdfFrames(account, text).value)
  {
    match account
    case WellsFargoChecking =>
      ChStatementFailsOnAnyDate(text, account);
      assert PdfFrames(account, text).value == [[]];
    case WellsFargoCreditCard =>
      CreditCardFrameIsTagged(text);
    case _ =>
  }

  /** A CSV adds only Chase rows. */
  lemma CsvRowsAreCardRows(account: Account, rows: seq<ChaseRow>)
    ensures CardRows(CsvFrames(account, rows))
  {
  }

  /** A file only ever adds credit card rows: checking frames are always
      empty and First Republic frames are never added. */
  lemma FileRowsAreCardRows(f: StatementFile)
    requires FileFrames(f).Ok?
    ensures CardRows(FileFrames(f).value)
  {
    var account := AccountOf(PathOf(f)).value;
    var pdf: seq<seq<LedgerRow>> := [];
    if Contains(f.name, PdfType) {
      PdfRowsAreCardRows(account, f.pdfText);
      pdf := PdfFrames(account, f.pdfText).value;
    }
    var csv: seq<seq<LedgerRow>> := if Contains(f.name, CsvType) then CsvFrames(account, f.chaseRows) else [];
    CsvRowsAreCardRows(account, f.chaseRows);
    CardRowsAppend(pdf, csv);
    assert FileFrames(f).value == pdf + csv;
  }

  /** A walk whose every step adds only credit card rows collects only
      credit card rows. */
  lemma {:induction false} WalkCardRows(files: seq<StatementFile>, step: StatementFile -> Outcome)
    requires forall f :: step(f).Ok? ==> CardRows(step(f).value)
    requires Walk(files, step).Ok?
    ensures CardRows(Walk(files, step).value)
    decreases |files|
  {
    if files != [] {
      WalkCardRows(files[..|files| - 1], step);
      CardRowsAppend(Walk(files[..|files| - 1], step).value, step(files[|files| - 1]).value);
    }
  }

  /** Concatenating frames of credit card rows gives credit card rows. */
  lemma {:induction false} FlattenCardRows(frames: seq<seq<LedgerRow>>)
    requires CardRows(frames)
    ensures forall k :: 0 <= k < |Flatten(frames)| ==>
      Flatten(frames)[k].account == Name(ChaseCreditCard) || Flatten(frames)[k].account == Name(WellsFargoCreditCard)
    decreases |frames|
  {
    if frames != [] {
      var init, last := frames[..|frames| - 1], frames[|frames| - 1];
      assert CardRows(init) by {
        forall i: int, j: int | 0 <= i < |init| && 0 <= j < |init[i]|
          ensures init[i][j].account == Name(ChaseCreditCard) || init[i][j].account == Name(WellsFargoCreditCard)
        {
          assert init[i] == frames[i];
        }
      }
      FlattenCardRows(init);
      forall k | 0 <= k < |Flatten(frames)|
        ensures Flatten(frames)[k].account == Name(ChaseCreditCard) || Flatten(frames)[k].account == Name(WellsFargoCreditCard)
      {
        if k >= |Flatten(init)| {
          assert Flatten(frames)[k] == last[k - |Flatten(init)|];
          assert last == frames[|frames| - 1];
        }
      }
    }
  }

  /** The aggregated ledger holds only credit card rows. */
  lemma LedgerHoldsOnlyCardRows(files: seq<StatementFile>)
    requires Aggregated(files).Ok?
    ensures forall k :: 0 <= k < |Aggregated(files).value| ==>
      Aggregated(files).value[k].account == Name(ChaseCreditCard)
      || Aggregated(files).value[k].account == Name(WellsFargoCreditCard)
  {
    forall f | FileFrames(f).Ok? ensures CardRows(FileFrames(f).value) {
      FileRowsAreCardRows(f);
    }
    WalkCardRows(files, FileFrames);
    FlattenCardRows(Walk(files, FileFrames).value);
  }

  /** A file `find_account` assigns to a First Republic account. */
  predicate FirstRepublicFile(f: StatementFile) {
    AccountOf(PathOf(f)) == Ok(FirstRepublicChecking) || AccountOf(PathOf(f)) == Ok(FirstRepublicMortgage)
  }

  /** A walk over First Republic exports collects no frame. */
  lemma {:induction false} FirstRepublicWalkIsEmpty(files: seq<StatementFile>)
    requires forall i :: 0 <= i < |files| ==> FirstRepublicFile(files[i])
    ensures Walk(files, FileFrames) == Ok([])
    decreases |files|
  {
    if files != [] {
      var init := files[..|files| - 1];
      assert forall i :: 0 <= i < |init| ==> init[i] == files[i];
      FirstRepublicWalkIsEmpty(init);
      FirstRepublicAddsNothing(files[|files| - 1]);
      var none: seq<seq<LedgerRow>> := [];
      assert none + none == none;
    }
  }

  /** A walk over a single Chase export collects its frame. */
  lemma ChaseWalk(chase: StatementFile)
    requires AccountOf(PathOf(chase)) == Ok(ChaseCreditCard)
    requires Contains(chase.name, CsvType)
    ensures Walk([chase], FileFrames) == Ok([ChaseFrame(chase.chaseRows, ChaseCreditCard)])
  {
    ChaseCsvAddsItsFrame(chase);
    assert [chase][..0] == [];
    var none: seq<seq<LedgerRow>> := [];
    assert Walk([chase][..0], FileFrames) == Ok(none);
    assert none + [ChaseFrame(chase.chaseRows, ChaseCreditCard)] == [ChaseFrame(chase.chaseRows, ChaseCreditCard)];
  }

  /** A Chase export followed by any number of First Republic exports gives
      exactly the Chase frame: the First Republic rows are not in the
      ledger. */
  lemma ChaseWithFirstRepublic(chase: StatementFile, others: seq<StatementFile>)
    requires AccountOf(PathOf(chase)) == Ok(ChaseCreditCard)
    requires Contains(chase.name, CsvType)
    requires forall i :: 0 <= i < |others| ==> FirstRepublicFile(others[i])
    ensures Aggregated([chase] + others) == Ok(ChaseFrame(chase.chaseRows, ChaseCreditCard))
    ensures |Aggregated([chase] + others).value| == |chase.chaseRows|
  {
    FirstRepublicWalkIsEmpty(others);
    ChaseWalk(chase);
    WalkAppend([chase], others, FileFrames);
    var frames := [ChaseFrame(chase.chaseRows, ChaseCreditCard)];
    assert frames + [] == frames;
    assert Walk([chase] + others, FileFrames) == Ok(frames);
    assert frames[..0] == [];
    assert Flatten(frames) == Flatten(frames[..0]) + frames[0];
    assert Flatten(frames) == frames[0];
  }

  /** The account can come from the directory: a file "jan.csv" found in
      "./statements/CCC" is a Chase export. */
  lemma AccountFromDirectory()
    ensures PathOf(StatementFile("./statements/CCC", "jan.csv", "", [], [])) == "./statements/CCC/jan.csv"
    ensures AccountOf("./statements/CCC/jan.csv") == Ok(ChaseCreditCard)
  {
    var path := "./statements/CCC/jan.csv";
    assert OccursAt(path, "CCC", 13);
    FirstMatchUnique(path, ChaseCreditCard);
  }

  // --------------------------------------------------------------- main

  /** The PDF branch of `main`'s loop body: the account's parser runs and
      its frame is appended; other accounts' PDFs are skipped. */
  method ParsePdf(account: Account, text: string) returns (r: Outcome)
    ensures r == PdfFrames(account, text)
  {
    r := Ok([]);
    if account == WellsFargoChecking {
      var parsed :- WfChParse(account, text);
      r := Ok([parsed]);
    }
    if account == WellsFargoCreditCard {
      var rows := WfCcParse(account, text);
      r := Ok([rows]);
    }
  }

  /** The CSV branch of `main`'s loop body: the Chase frame is appended; the
      First Republic frames are built and dropped. */
  method TransformCsv(account: Account, f: StatementFile) returns (appended: seq<seq<LedgerRow>>)
    ensures appended == CsvFrames(account, f.chaseRows)
  {
    appended := [];
    if account == ChaseCreditCard {
      appended := [ChaseFrame(f.chaseRows, account)];
    }
    if account == FirstRepublicChecking {
      var dropped := FirstRepublicCheckingFrame(f.firstRepublicRows, account);
    }
    if account == FirstRepublicMortgage {
      var dropped := FirstRepublicMortgageFrame(f.firstRepublicRows, account);
    }
  }

  /** The body of `main`'s loop for one file: looks the account up, runs
      the PDF branch, then the CSV branch, and returns the frames appended. */
  method ProcessFile(f: StatementFile) returns (r: Outcome)
    ensures r == FileFrames(f)
  {
    var account :- FindAccount(Join(f.dirpath, f.name));
    var pdf: seq<seq<LedgerRow>> := [];
    if Contains(f.name, PdfType) {
      pdf :- ParsePdf(account, f.pdfText);
    }
    var csv: seq<seq<LedgerRow>> := [];
    if Contains(f.name, CsvType) {
      csv := TransformCsv(account, f);
    }
    r := Ok(pdf + csv);
  }

  /** `main`: walks the files, appends the frames of each, and concatenates
      them at the end; the first exception ends the run. */
  method Aggregate(files: seq<StatementFile>) returns (r: Result<seq<LedgerRow>>)
    ensures r == Aggregated(files)
  {
    var frames: seq<seq<LedgerRow>> := [];
    for i := 0 to |files|
      invariant Walk(files[..i], FileFrames) == Ok(frames)
    {
      var added := ProcessFile(files[i]);
      if added.Err? {
        WalkAbort(files, i, FileFrames);
        return Err(added.failure);
      }
      WalkStep(files, i, FileFrames);
      frames := frames + added.value;
    }
    assert files[..|files|] == files;
    if frames == [] {
      return Err(NothingToConcatenate);
    }
    r := Ok(Flatten(frames));
  }
}
