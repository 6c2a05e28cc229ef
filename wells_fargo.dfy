/** The two Wells Fargo PDF parsers, wf_cc_parse_pdf and wf_ch_parse_pdf
    (finances.py:34-95), from the extracted text onwards. Both find their
    lines with `re.findall`, build the dates and amounts with list
    comprehensions, the descriptions with a loop, and assemble one record
    per line tagged with the account's name. They differ in the line
    pattern and in the year stamp. */
module WellsFargo {
  import opened Ledger
  import opened Strings
  import opened Accounts
  import opened Fields
  import opened LineFinders

  /** YEAR (finances.py:10). */
  const Year: nat := 2023

  function DigitChar(d: nat): (c: char)
    requires d < 10
    ensures IsDigit(c)
  {
    "0123456789"[d]
  }

  /** Decimal digits of `n`, as f"{n}" writes them. */
  function Decimal(n: nat): (r: string)
    ensures |r| > 0 && forall k :: 0 <= k < |r| ==> IsDigit(r[k])
  {
    if n < 10 then [DigitChar(n)] else Decimal(n / 10) + [DigitChar(n % 10)]
  }

  /** f"/{YEAR}", the stamp the credit card parser appends to each date. */
  function YearStamp(): string { "/" + Decimal(Year) }

  /** The literal the checking parser appends instead. */
  const CheckingStamp: string := "/2023"

  /** With YEAR at 2023 the two stamps coincide. */
  lemma StampsAgree()
    ensures YearStamp() == CheckingStamp
  {
    assert Decimal(2) == "2";
    assert Decimal(20) == "20";
    assert Decimal(202) == "202";
  }

  // ------------------------------------------------- record assembly

  /** The list comprehension of dates: each line's date plus the stamp. The
      first line without a date raises. */
  function Dates(lines: seq<string>, stamp: string): (r: Result<seq<string>>)
    ensures r.Ok? <==> forall i :: 0 <= i < |lines| ==> DatePrefix(lines[i]).Some?
    ensures r.Ok? ==> |r.value| == |lines|
    ensures r.Ok? ==> forall i :: 0 <= i < |lines| ==> r.value[i] == DatePrefix(lines[i]).value + stamp
  {
    if lines == [] then Ok([])
    else match DatePrefix(lines[0])
      case None => Err(NoDateInLine(lines[0]))
      case Some(d) =>
        var rest :- Dates(lines[1..], stamp);
        Ok([d + stamp] + rest)
  }

  /** `lines[k]` is the first line without a date. */
  predicate FirstWithoutDate(lines: seq<string>, k: int) {
    0 <= k < |lines| && DatePrefix(lines[k]).None?
    && forall j :: 0 <= j < k ==> DatePrefix(lines[j]).Some?
  }

  /** The exception names the first line without a date. */
  lemma {:induction false} DatesReportsFirstMissing(lines: seq<string>, stamp: string, k: nat)
    requires FirstWithoutDate(lines, k)
    ensures Dates(lines, stamp) == Err(NoDateInLine(lines[k]))
    decreases k
  {
    if k > 0 {
      assert FirstWithoutDate(lines[1..], k - 1) by {
        forall j | 0 <= j < k - 1 ensures DatePrefix(lines[1..][j]).Some? {
          assert lines[1..][j] == lines[j + 1];
        }
      }
      DatesReportsFirstMissing(lines[1..], stamp, k - 1);
      assert DatePrefix(lines[0]).Some?;
    }
  }

  /** The list comprehension of amounts. The first line without an amount
      raises. */
  function Money(lines: seq<string>): (r: Result<seq<string>>)
    ensures r.Ok? <==> forall i :: 0 <= i < |lines| ==> Amount(lines[i]).Some?
    ensures r.Ok? ==> |r.value| == |lines|
    ensures r.Ok? ==> forall i :: 0 <= i < |lines| ==> Some(r.value[i]) == Amount(lines[i])
  {
    if lines == [] then Ok([])
    else match Amount(lines[0])
      case None => Err(NoAmountInLine(lines[0]))
      case Some(a) =>
        var rest :- Money(lines[1..]);
        Ok([a] + rest)
  }

  /** `lines[k]` is the first line without an amount. */
  predicate FirstWithoutAmount(lines: seq<string>, k: int) {
    0 <= k < |lines| && Amount(lines[k]).None?
    && forall j :: 0 <= j < k ==> Amount(lines[j]).Some?
  }

  /** The exception names the first line without an amount. */
  lemma {:induction false} MoneyReportsFirstMissing(lines: seq<string>, k: nat)
    requires FirstWithoutAmount(lines, k)
    ensures Money(lines) == Err(NoAmountInLine(lines[k]))
    decreases k
  {
    if k > 0 {
      assert FirstWithoutAmount(lines[1..], k - 1) by {
        forall j | 0 <= j < k - 1 ensures Amount(lines[1..][j]).Some? {
          assert lines[1..][j] == lines[j + 1];
        }
      }
      MoneyReportsFirstMissing(lines[1..], k - 1);
      assert Amount(lines[0]).Some?;
    }
  }

  /** The DataFrame built from the three columns and the account name. */
  function Frame(dates: seq<string>, descriptions: seq<string>, money: seq<string>, account: Account): (rows: seq<LedgerRow>)
    requires |dates| == |descriptions| == |money|
    ensures |rows| == |dates|
  {
    seq(|dates|, i requires 0 <= i < |dates| => LedgerRow(dates[i], descriptions[i], Text(money[i]), Name(account)))
  }

  /** The frame a parser returns for its lines: dates first (a line without
      a date raises before any amount is looked at), then amounts, then the
      descriptions and one record per line. */
  function Statement(lines: seq<string>, stamp: string, account: Account): Result<seq<LedgerRow>> {
    var dates :- Dates(lines, stamp);
    var money :- Money(lines);
    Ok(Frame(dates, seq(|lines|, i requires 0 <= i < |lines| => Description(lines[i], dates[i])), money, account))
  }

  /** One record per line, in line order, with the line's date plus stamp,
      its description, its amount text and the account's name; the parse
      fails exactly when a line lacks a date or an amount. Dates are looked
      at first: a missing date is reported before any missing amount. */
  lemma StatementRecords(lines: seq<string>, stamp: string, account: Account)
    ensures Statement(lines, stamp, account).Ok? <==>
      forall i :: 0 <= i < |lines| ==> DatePrefix(lines[i]).Some? && Amount(lines[i]).Some?
    ensures Statement(lines, stamp, account).Ok? ==>
      var rows := Statement(lines, stamp, account).value;
      && |rows| == |lines|
      && forall i :: 0 <= i < |lines| ==>
        var date := DatePrefix(lines[i]).value + stamp;
        rows[i] == LedgerRow(date, Description(lines[i], date), Text(Amount(lines[i]).value), Name(account))
  {
  }

  /** A line without a date makes the parse raise for the first such line,
      whatever the amounts. */
  lemma StatementReportsMissingDate(lines: seq<string>, stamp: string, account: Account, k: nat)
    requires FirstWithoutDate(lines, k)
    ensures Statement(lines, stamp, account) == Err(NoDateInLine(lines[k]))
  {
    DatesReportsFirstMissing(lines, stamp, k);
  }

  /** With every date present, a line without an amount makes the parse
      raise for the first such line. */
  lemma StatementReportsMissingAmount(lines: seq<string>, stamp: string, account: Account, k: nat)
    requires forall i :: 0 <= i < |lines| ==> DatePrefix(lines[i]).Some?
    requires FirstWithoutAmount(lines, k)
    ensures Statement(lines, stamp, account) == Err(NoAmountInLine(lines[k]))
  {
    MoneyReportsFirstMissing(lines, k);
  }

  /** The loop that collects the descriptions: group 1 of the description
      search with the line's stamped date removed, or "" when the search
      finds nothing. */
  method CollectDescriptions(lines: seq<string>, dates: seq<string>) returns (description: seq<string>)
    requires |dates| == |lines|
    ensures |description| == |lines|
    ensures forall k :: 0 <= k < |lines| ==> description[k] == Description(lines[k], dates[k])
  {
    description := [];
    for i := 0 to |lines|
      invariant |description| == i
      invariant forall k :: 0 <= k < i ==> description[k] == Description(lines[k], dates[k])
    {
      var m := DescriptionGroup(lines[i]);
      if m.None? {
        description := description + [""];
      } else {
        description := description + [ReplaceAll(m.value, dates[i], "")];
      }
    }
  }

  /** The shared body of both parsers from the found lines on: the list
      comprehensions for dates and amounts, the description loop, and the
      assembled frame. */
  method ParseLines(account: Account, lines: seq<string>, stamp: string) returns (r: Result<seq<LedgerRow>>)
    ensures r == Statement(lines, stamp, account)
  {
    var dates :- Dates(lines, stamp);
    var money :- Money(lines);
    var description := CollectDescriptions(lines, dates);
    assert description == seq(|lines|, i requires 0 <= i < |lines| => Description(lines[i], dates[i]));
    r := Ok(Frame(dates, description, money, account));
  }

  // ------------------------------------------------------- credit card

  /** A line the credit card pattern found yields a date, its first five
      characters, and an amount. */
  lemma CcLineFields(l: string)
    requires DDSlashDDAt(l, 0) && AmountEndsAt(l, |l|, Digits)
    requires forall k :: 0 <= k < |l| ==> l[k] != '\n'
    ensures DatePrefix(l) == Some(l[..5])
    ensures Amount(l).Some?
  {
    assert DateShape(l, 2, 2);
    assert AnchorEnd(l) == |l|;
  }

  /** The credit card parse never raises. */
  lemma CcStatementOk(text: string, account: Account)
    ensures Statement(CcLines(text), YearStamp(), account).Ok?
  {
    var lines := CcLines(text);
    CcLinesWellFormed(text);
    forall i | 0 <= i < |lines| ensures DatePrefix(lines[i]).Some? && Amount(lines[i]).Some? {
      CcLineFields(lines[i]);
    }
    StatementRecords(lines, YearStamp(), account);
  }

  /** The frame wf_cc_parse_pdf returns for the extracted text. */
  function CcStatement(text: string, account: Account): (rows: seq<LedgerRow>)
    ensures |rows| == |CcLines(text)|
  {
    CcStatementOk(text, account);
    StatementLength(CcLines(text), YearStamp(), account);
    Statement(CcLines(text), YearStamp(), account).value
  }

  /** A successful parse makes one record per line. */
  lemma StatementLength(lines: seq<string>, stamp: string, account: Account)
    ensures Statement(lines, stamp, account).Ok? ==> |Statement(lines, stamp, account).value| == |lines|
  {
  }

  /** The record a successful parse makes of its `i`-th line. */
  lemma StatementRecordAt(lines: seq<string>, stamp: string, account: Account, i: nat)
    requires Statement(lines, stamp, account).Ok? && i < |lines|
    ensures DatePrefix(lines[i]).Some? && Amount(lines[i]).Some?
    ensures |Statement(lines, stamp, account).value| == |lines|
    ensures var date := DatePrefix(lines[i]).value + stamp;
      Statement(lines, stamp, account).value[i] ==
        LedgerRow(date, Description(lines[i], date), Text(Amount(lines[i]).value), Name(account))
  {
  }

  /** The credit card record for the `i`-th line found. */
  lemma CcStatementRecordAt(text: string, account: Account, i: nat)
    requires i < |CcLines(text)|
    ensures |CcStatement(text, account)| == |CcLines(text)|
    ensures var l, row := CcLines(text)[i], CcStatement(text, account)[i];
      && row.date == l[..5] + "/2023" && |row.date| == 10
      && row.amount.Text? && Amount(l) == Some(row.amount.text)
      && row.description == (if |l| < 29 then "" else ReplaceAll(l[29..], row.date, ""))
      && row.account == Name(account)
  {
    var lines := CcLines(text);
    var l := lines[i];
    CcStatementOk(text, account);
    StatementRecordAt(lines, YearStamp(), account, i);
    CcLineWellFormed(text, i);
    CcLineFields(l);
    StampsAgree();
    var date := l[..5] + "/2023";
    assert DatePrefix(l).value + YearStamp() == date;
    DescriptionOfStatementLine(l, date);
  }

  /** Every credit card record: one per line found, in order; Date is the
      line's DD/DD followed by "/2023" (ten characters); Amount is the line's
      amount text; Description is "" for a line under 29 characters and
      otherwise the text after offset 29 without the stamped date; Account is
      the account's name. */
  lemma CcStatementRecords(text: string, account: Account)
    ensures |CcStatement(text, account)| == |CcLines(text)|
    ensures forall i :: 0 <= i < |CcLines(text)| ==>
      var l, row := CcLines(text)[i], CcStatement(text, account)[i];
      && row.date == l[..5] + "/2023" && |row.date| == 10
      && row.amount.Text? && Amount(l) == Some(row.amount.text)
      && row.description == (if |l| < 29 then "" else ReplaceAll(l[29..], row.date, ""))
      && row.account == Name(account)
  {
    StatementRecords(CcLines(text), YearStamp(), account);
    CcStatementOk(text, account);
    forall i | 0 <= i < |CcLines(text)|
      ensures var l, row := CcLines(text)[i], CcStatement(text, account)[i];
        && row.date == l[..5] + "/2023" && |row.date| == 10
        && row.amount.Text? && Amount(l) == Some(row.amount.text)
        && row.description == (if |l| < 29 then "" else ReplaceAll(l[29..], row.date, ""))
        && row.account == Name(account)
    {
      CcStatementRecordAt(text, account, i);
    }
  }

  /** wf_cc_parse_pdf from the extracted text on. */
  method WfCcParse(account: Account, text: string) returns (rows: seq<LedgerRow>)
    ensures rows == CcStatement(text, account)
  {
    var lines := CcLines(text);
    var r := ParseLines(account, lines, YearStamp());
    CcStatementOk(text, account);
    rows := r.value;
  }

  /** A typical statement line, "03/14 SOME STORE 1234567890123456789012PURCHASE DESC 45.67",
      written in short pieces: the 29 characters the description skips, the
      rest of the text, and the amount. */
  const SampleHead: string := "03/14 SOME STORE" + " 123456789012"
  const SampleRest: string := "3456789012PURCHASE DESC "
  const SampleAmount: string := "45.67"
  const SampleLine: string := SampleHead + (SampleRest + SampleAmount)

  /** The sample line's date is its first five characters. */
  lemma SampleLineDate()
    ensures DatePrefix(SampleLine) == Some("03/14")
  {
    assert DateShape(SampleLine, 2, 2);
    assert SampleLine[..5] == "03/14";
  }

  /** Any line ending in a space and the sample amount, the sample line among
      them, has that amount: the space stops the class run. */
  lemma SampleLineAmount(l: string)
    requires |l| >= 6 && l[|l| - 6..] == " " + SampleAmount
    ensures Amount(l) == Some(SampleAmount)
  {
    var k := |l| - 5;
    assert l[k - 1] == ' ';
    assert l[k..] == SampleAmount;
    MaximalSuffixIsAmount(l, k);
  }

  /** The sample line starts with DD/DD and holds no newline. */
  lemma SampleLineShape()
    ensures DDSlashDDAt(SampleLine, 0)
    ensures forall k :: 0 <= k < |SampleLine| ==> SampleLine[k] != '\n'
  {
    var l, h1, h2 := SampleLine, "03/14 SOME STORE", " 123456789012";
    assert SampleHead == h1 + h2;
    forall k | 0 <= k < |l| ensures l[k] != '\n' {
      if k < 16 {
        assert l[k] == h1[k];
      } else if k < 29 {
        assert l[k] == h2[k - 16];
      } else if k < 53 {
        assert l[k] == SampleRest[k - 29];
      } else {
        assert l[k] == SampleAmount[k - 53];
      }
    }
  }

  /** The text from offset 29 on has no slash, so no stamped date occurs
      there. */
  lemma SampleTextHasNoDate()
    ensures SampleLine[29..] == SampleRest + SampleAmount
    ensures !Contains(SampleLine[29..], "03/14/2023")
  {
    var t := SampleRest + SampleAmount;
    assert SampleLine[29..] == t;
    forall k | 0 <= k < |t| ensures t[k] != '/' {
      if k < 24 {
        assert t[k] == SampleRest[k];
      } else {
        assert t[k] == SampleAmount[k - 24];
      }
    }
    AbsentChar(t, "03/14/2023", 2);
  }

  /** The sample line's description is everything from offset 29 on: the
      stamped date does not occur there, so nothing is removed. */
  lemma SampleLineDescription()
    ensures Description(SampleLine, "03/14/2023") == "3456789012PURCHASE DESC 45.67"
  {
    SampleLineShape();
    SampleTextHasNoDate();
    DescriptionOfStatementLine(SampleLine, "03/14/2023");
  }

  /** A single line with a date and an amount parses to one record. */
  lemma SingleLineStatement(l: string, stamp: string, account: Account)
    requires DatePrefix(l).Some? && Amount(l).Some?
    ensures var date := DatePrefix(l).value + stamp;
      Statement([l], stamp, account) == Ok([LedgerRow(date, Description(l, date), Text(Amount(l).value), Name(account))])
  {
    var date := DatePrefix(l).value + stamp;
    var row := LedgerRow(date, Description(l, date), Text(Amount(l).value), Name(account));
    StatementRecords([l], stamp, account);
    var rows := Statement([l], stamp, account).value;
    assert |rows| == 1 && rows[0] == row;
    assert rows == [row];
  }

  /** The sample line's stamped date, amount and description together. */
  lemma SampleLineFields()
    ensures DatePrefix(SampleLine).Some? && DatePrefix(SampleLine).value + YearStamp() == "03/14/2023"
    ensures Amount(SampleLine) == Some("45.67")
    ensures Description(SampleLine, "03/14/2023") == "3456789012PURCHASE DESC 45.67"
  {
    SampleLineDate();
    StampsAgree();
    assert "03/14" + CheckingStamp == "03/14/2023";
    SampleLineAmount(SampleLine);
    SampleLineDescription();
  }

  /** The sample line parsed on its own by the credit card parser's body:
      one record with the stamped date, the text after offset 29, the
      amount and the enum name. */
  lemma SampleLineRecord()
    ensures Statement([SampleLine], YearStamp(), WellsFargoCreditCard) ==
      Ok([LedgerRow("03/14/2023", "3456789012PURCHASE DESC 45.67", Text("45.67"), "WELLS_FARGO_CREDIT_CARD")])
  {
    SampleLineFields();
    SingleLineStatement(SampleLine, YearStamp(), WellsFargoCreditCard);
  }

  // ---------------------------------------------------------- checking

  /** Neither an empty group nor one that starts with a newline begins with
      a date. */
  lemma GroupHasNoDate(g: string)
    requires g == [] || g[0] == '\n'
    ensures DatePrefix(g).None?
  {
  }

  /** The frame wf_ch_parse_pdf returns, or the exception it raises. */
  function ChStatement(text: string, account: Account): Result<seq<LedgerRow>> {
    Statement(ChGroups(text, 0), CheckingStamp, account)
  }

  /** The checking parser raises exactly when the text holds a digit, a
      slash and a digit anywhere: findall then returns group texts, none of
      which starts with a date. Otherwise it returns an empty frame. */
  lemma ChStatementFailsOnAnyDate(text: string, account: Account)
    ensures ChStatement(text, account).Err? <==> exists i: nat :: DigitSlashDigitAt(text, i)
    ensures ChStatement(text, account).Ok? ==> ChStatement(text, account).value == []
    ensures ChStatement(text, account).Err? ==>
      var g := ChGroups(text, 0)[0];
      && (g == [] || g[0] == '\n')
      && ChStatement(text, account) == Err(NoDateInLine(g))
  {
    var groups := ChGroups(text, 0);
    ChGroupsNonEmptyIff(text);
    if groups != [] {
      GroupHasNoDate(groups[0]);
      assert FirstWithoutDate(groups, 0);
      StatementReportsMissingDate(groups, CheckingStamp, account, 0);
    }
  }

  /** wf_ch_parse_pdf from the extracted text on. */
  method WfChParse(account: Account, text: string) returns (r: Result<seq<LedgerRow>>)
    ensures r == ChStatement(text, account)
  {
    var lines := ChGroups(text, 0);
    r := ParseLines(account, lines, CheckingStamp);
  }
}
