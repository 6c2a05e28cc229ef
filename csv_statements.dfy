/** The column transforms `main` applies to the CSV statements
    (finances.py:122-141). A Chase credit card export keeps Post Date,
    Description and Amount, gains the account's name and has its amounts
    negated; a First Republic export gets Amount = -(Debit + Credit), with
    the mortgage variant filling a missing Debit with zero. Amounts are
    exact cents; None is a missing value (NaN), which `+` and `-1 *`
    propagate. */
module CsvStatements {
  import opened Ledger
  import opened Accounts

  // ------------------------------------------------------------- amounts

  /** `-1 * x` on a column entry: a missing value stays missing. */
  function Negate(x: Option<int>): Option<int> {
    match x
    case None => None
    case Some(v) => Some(-v)
  }

  /** `x + y` on column entries: missing if either side is. */
  function Plus(x: Option<int>, y: Option<int>): Option<int> {
    if x.Some? && y.Some? then Some(x.value + y.value) else None
  }

  /** `fillna(v)` on a column entry. */
  function FillNa(x: Option<int>, v: int): int {
    if x.Some? then x.value else v
  }

  /** Negating twice gives back the column. */
  lemma NegateInvolution(x: Option<int>)
    ensures Negate(Negate(x)) == x
  {
  }

  // --------------------------------------------------------------- Chase

  /** A row of a Chase credit card export, as far as the program reads it. */
  datatype ChaseRow = ChaseRow(postDate: string, description: string, amount: Option<int>)

  /** The selected columns, in the order the frame ends up with once the
      Account column is added and Post Date is renamed. */
  const ChaseSelected: seq<string> := ["Post Date", "Description", "Amount"]

  /** Post Date renamed to Date and Account appended: the ledger's columns.
      The column names are bookkeeping only: `ChaseFrame` builds `LedgerRow`
      records directly, so the columns the frame has rest on that type. */
  lemma ChaseColumnsAreLedgerColumns()
    ensures ["Date"] + ChaseSelected[1..] + ["Account"] == LedgerColumns
  {
  }

  /** The Chase frame: one record per row with the post date, the
      description, the negated amount and the account's name. */
  function ChaseFrame(rows: seq<ChaseRow>, account: Account): (frame: seq<LedgerRow>)
    ensures |frame| == |rows|
  {
    seq(|rows|, i requires 0 <= i < |rows| =>
      LedgerRow(rows[i].postDate, rows[i].description, Cents(Negate(rows[i].amount)), Name(account)))
  }

  /** The export a Chase frame was made from, read back off the frame. */
  function ChaseSource(frame: seq<LedgerRow>): (rows: seq<ChaseRow>)
    requires forall i :: 0 <= i < |frame| ==> frame[i].amount.Cents?
    ensures |rows| == |frame|
  {
    seq(|frame|, i requires 0 <= i < |frame| =>
      ChaseRow(frame[i].date, frame[i].description, Negate(frame[i].amount.cents)))
  }

  /** Nothing is lost: the export can be recovered from the frame. */
  lemma ChaseFrameRoundTrip(rows: seq<ChaseRow>, account: Account)
    ensures forall i :: 0 <= i < |ChaseFrame(rows, account)| ==> ChaseFrame(rows, account)[i].amount.Cents?
    ensures ChaseSource(ChaseFrame(rows, account)) == rows
  {
    var frame := ChaseFrame(rows, account);
    forall i | 0 <= i < |rows| ensures ChaseSource(frame)[i] == rows[i] {
      NegateInvolution(rows[i].amount);
    }
  }

  /** Every record is tagged with the account's name, and the sign of
      every amount flips: a charge exported as negative becomes positive
      and a payment exported as positive becomes negative. */
  lemma ChaseSignConvention(rows: seq<ChaseRow>, account: Account, i: nat)
    requires i < |rows|
    ensures ChaseFrame(rows, account)[i].account == Name(account)
    ensures rows[i].amount.Some? && rows[i].amount.value < 0 ==>
      ChaseFrame(rows, account)[i].amount.cents.value > 0
    ensures rows[i].amount.Some? && rows[i].amount.value > 0 ==>
      ChaseFrame(rows, account)[i].amount.cents.value < 0
    ensures rows[i].amount.None? <==> ChaseFrame(rows, account)[i].amount.cents.None?
  {
  }

  /** The frame of two exports back to back is the two frames back to back. */
  lemma ChaseFrameConcat(a: seq<ChaseRow>, b: seq<ChaseRow>, account: Account)
    ensures ChaseFrame(a + b, account) == ChaseFrame(a, account) + ChaseFrame(b, account)
  {
    var l, r := ChaseFrame(a + b, account), ChaseFrame(a, account) + ChaseFrame(b, account);
    forall i | 0 <= i < |a + b| ensures l[i] == r[i] {
      if i < |a| {
        assert (a + b)[i] == a[i];
      } else {
        assert (a + b)[i] == b[i - |a|];
      }
    }
  }

  // ------------------------------------------------------- First Republic

  /** A row of a First Republic export, as far as the program reads it. */
  datatype FirstRepublicRow = FirstRepublicRow(date: string, statementDescription: string, debit: Option<int>, credit: Option<int>)

  /** A record of a transformed First Republic frame. Its columns keep the
      name Statement Description. */
  datatype FirstRepublicRecord = FirstRepublicRecord(date: string, statementDescription: string, amount: Option<int>, account: string)

  const FirstRepublicColumns: seq<string> := ["Date", "Statement Description", "Amount", "Account"]

  /** The First Republic columns are not the ledger's. Like the Chase
      selection, this compares names only: the record types carry the
      columns, and `FirstRepublicRecord` is a separate type from `LedgerRow`. */
  lemma FirstRepublicColumnsDiffer()
    ensures FirstRepublicColumns != LedgerColumns
  {
    assert FirstRepublicColumns[1] != LedgerColumns[1];
  }

  /** Amount of a checking row: `-1 * (Debit + Credit)`. */
  function CheckingAmount(row: FirstRepublicRow): Option<int> {
    Negate(Plus(row.debit, row.credit))
  }

  /** Amount of a mortgage row: `-1 * (Debit.fillna(0) + Credit)`. */
  function MortgageAmount(row: FirstRepublicRow): Option<int> {
    Negate(Plus(Some(FillNa(row.debit, 0)), row.credit))
  }

  /** With both columns present each variant gives minus their sum; a
      missing Debit makes the checking amount missing but leaves the
      mortgage amount as minus Credit; a missing Credit makes both missing. */
  lemma FirstRepublicAmountCases(row: FirstRepublicRow)
    ensures row.debit.Some? && row.credit.Some? ==>
      CheckingAmount(row) == MortgageAmount(row) == Some(-(row.debit.value + row.credit.value))
    ensures row.debit.None? ==> CheckingAmount(row) == None && MortgageAmount(row) == Negate(row.credit)
    ensures row.credit.None? ==> CheckingAmount(row).None? && MortgageAmount(row).None?
  {
  }

  /** The mortgage amount agrees with the checking amount wherever the
      latter is present, and is present exactly when Credit is. */
  lemma MortgageExtendsChecking(row: FirstRepublicRow)
    ensures CheckingAmount(row).Some? ==> MortgageAmount(row) == CheckingAmount(row)
    ensures MortgageAmount(row).Some? <==> row.credit.Some?
    ensures CheckingAmount(row).Some? <==> row.debit.Some? && row.credit.Some?
  {
  }

  /** The transformed frame of a checking export. */
  function FirstRepublicCheckingFrame(rows: seq<FirstRepublicRow>, account: Account): (frame: seq<FirstRepublicRecord>)
    ensures |frame| == |rows|
    ensures forall i :: 0 <= i < |rows| ==>
      frame[i].date == rows[i].date && frame[i].statementDescription == rows[i].statementDescription
  {
    seq(|rows|, i requires 0 <= i < |rows| =>
      FirstRepublicRecord(rows[i].date, rows[i].statementDescription, CheckingAmount(rows[i]), Name(account)))
  }

  /** The transformed frame of a mortgage export. */
  function FirstRepublicMortgageFrame(rows: seq<FirstRepublicRow>, account: Account): (frame: seq<FirstRepublicRecord>)
    ensures |frame| == |rows|
    ensures forall i :: 0 <= i < |rows| ==>
      frame[i].date == rows[i].date && frame[i].statementDescription == rows[i].statementDescription
  {
    seq(|rows|, i requires 0 <= i < |rows| =>
      FirstRepublicRecord(rows[i].date, rows[i].statementDescription, MortgageAmount(rows[i]), Name(account)))
  }

  /** On an export whose every Debit is present the two variants agree. */
  lemma FrameVariantsAgreeWithoutGaps(rows: seq<FirstRepublicRow>, account: Account)
    requires forall i :: 0 <= i < |rows| ==> rows[i].debit.Some?
    ensures FirstRepublicCheckingFrame(rows, account) == FirstRepublicMortgageFrame(rows, account)
  {
    var c, m := FirstRepublicCheckingFrame(rows, account), FirstRepublicMortgageFrame(rows, account);
    forall i | 0 <= i < |rows| ensures c[i] == m[i] {
      MortgageExtendsChecking(rows[i]);
      FirstRepublicAmountCases(rows[i]);
    }
  }
}
