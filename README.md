# Statement aggregator: a Dafny model of `finances.py`

`finances.py` walks a directory of bank statements and turns each file into
ledger rows with the columns Date, Description, Amount and Account. Then it
concatenates the rows into one aggregated statement. This project models
that program, from the extracted text or the parsed CSV rows to the final
list of rows. It proves the properties the parsing and the dispatch rest on.

- **Account lookup** (`accounts.dfy`). `find_account` walks the `Accounts`
  enumeration in declaration order. It returns the first account whose token
  occurs in the path, and raises `RuntimeError` when none does.
- **Line finders** (`line_finders.dfy`). These model `re.findall` with the two
  Wells Fargo patterns. Python's matcher is written out: it tries every start
  from left to right and resumes after a match. The greedy `.*` stops at a
  newline and gives characters back until the amount part matches. Each
  backtracking function is proved equal to a declarative reading: a credit
  card match runs from a `DD/DD` to the end of the last amount on its line.
  The checking pattern has one capturing group, so `findall` returns the
  group texts. Each of these is empty or starts with a newline.
- **Field extraction** (`fields.dfy`). The date, amount and description
  searches each parser runs on every line found.
- **Parsers** (`wells_fargo.dfy`). `wf_cc_parse_pdf` and `wf_ch_parse_pdf` from
  the extracted text on:
  - the list comprehensions for dates and amounts, which raise on the first
    line without a match;
  - the description loop;
  - the frame, with one record per line tagged with the account's name.

  The credit card parser never raises. Every one of its records is
  characterised from its line. The checking parser raises exactly when the
  text holds a digit, a slash and a digit. This is because its date search
  runs on group texts, which never start with a date. Otherwise it returns
  an empty frame.
- **CSV transforms** (`csv_statements.dfy`). The Chase column selection,
  negation and renaming, and the two First Republic amount formulas.
  Amounts are exact cents, with `None` for a missing value (pandas' NaN).
  `None` propagates through `+` and `-1 *`.
- **Main loop** (`aggregator.dfy`). The directory walk is given as the
  sequence of files it yields. For each file the model looks up the account
  from `os.path.join(dirpath, name)`. It then runs the PDF branch and the CSV
  branch, chosen by *substring* `.pdf` / `.csv` in the name, and collects the
  frames. `pd.concat` raises on an empty list.

Three methods render the loops of the source: `FindAccount`,
`CollectDescriptions` and `Aggregate`. The other methods render the code
between and inside those loops:
- `ParseLines`, `WfCcParse` and `WfChParse` cover the two parsers;
- `ParsePdf`, `TransformCsv` and `ProcessFile` cover one file's branches.

Each method is proved equal to the function that specifies it.

Two behaviours of the code that a reader may not expect:

- A path that holds two tokens is not rejected. The earlier account in
  declaration order is taken (`Accounts.AmbiguousPathTakesEarlierAccount`).
- First Republic frames are built but never appended. A Chase export with
  three rows and a First Republic checking export with two give a ledger of
  three rows, not five (`Aggregator.ChaseWithFirstRepublic`).

## Model

| member | source | states |
|---|---|---|
| Accounts.Token | finances.py:20-24 | the enumeration value, the token looked for in a path |
| Accounts.Name | finances.py:19-24 | the enumeration member's name, written into the Account column |
| Accounts.Rank | finances.py:19-28 | each account's position in `DeclarationOrder`, the order `for account in Accounts` visits them: CCC, WFCh, WFCC, FRC, FRM |
| Accounts.NamesDistinct | finances.py:19-24 | distinct accounts carry distinct names in the Account column |
| Accounts.FirstWithToken | finances.py:28-30 | the index found has a token in the path and no earlier one does; no index means no token occurs |
| Accounts.AccountOf | finances.py:27-31 | `find_account`: the account at the first index whose token occurs in the path, or the error naming the path |
| Accounts.AccountOfIsFirstMatch | finances.py:27-31 | the account found is the first in declaration order whose token is a substring of the path; the lookup raises exactly when no token is |
| Accounts.FirstMatchUnique | finances.py:27-31 | the first-match property determines the account returned |
| Accounts.FirstFoundAt | finances.py:28-30 | the loop's first hit is the account the lookup returns |
| Accounts.NoneFound | finances.py:31 | a loop that finds no token ends in the RuntimeError naming the path |
| Accounts.FindAccount | finances.py:27-31 | the search loop with early return gives the first-match account, or raises for the path |
| Accounts.AmbiguousPathTakesEarlierAccount | finances.py:19-30 | a path holding both CCC and WFCC is assigned CHASE_CREDIT_CARD |
| Accounts.LowerCasePathHasNoAccount | finances.py:28-31 | every token starts with an upper-case letter, so a path without one raises |
| Accounts.MatchingIsCaseSensitive | finances.py:29 | "CCC.csv" is the Chase card's, "ccc.csv" belongs to no account |
| Strings.LineEnd | finances.py:8-9 | how far `.` repeated from an index reaches: up to the first newline at or after it, or the end of the text |
| Strings.Contains | finances.py:29 | Python's `in` on strings: the second string occurs at some index of the first |
| Strings.ReplaceAll | finances.py:53 | `str.replace`: every non-overlapping occurrence, taken from the left, is replaced; an empty pattern inserts the replacement around every character |
| Strings.ReplaceAbsent | finances.py:53 | `str.replace` of a string that does not occur changes nothing |
| Strings.ReplaceBySelf | finances.py:53 | replacing a string by itself is the identity |
| Strings.RemoveShortensIffPresent | finances.py:53 | removing a non-empty string never lengthens the text and shortens it exactly when the string occurs |
| Fields.LeadingDigits | finances.py:44 | a greedy `[0-9]{0,limit}`: as many digits as occur, up to the limit, and the next character is no digit when stopped short |
| Fields.DateSplit | finances.py:44 | `^[0-9]{1,2}/[0-9]{1,2}` matches with the unique month width and the widest day, and fails exactly when no split exists |
| Fields.DatePrefix | finances.py:44 | the whole match of the anchored date search: the line's first month-slash-day characters, or none |
| Fields.DatePrefixMeaning | finances.py:44 | the date found is a prefix of the line with that split; none is found exactly when the line starts with no date |
| Fields.AnchorEnd | finances.py:46 | `$` matches at the end of the line or before a final newline |
| Fields.RunStart | finances.py:46 | where the run of `[0-9?,]` characters ending at an index begins: every character from there is in the class and the one before is not |
| Fields.AmountStart | finances.py:46 | the search finds the leftmost index the amount pattern matches from, and fails exactly when there is none |
| Fields.Amount | finances.py:46 | the whole match of the amount search: the line from its leftmost matching start up to the `$` position, or none |
| Fields.AmountIsMaximalSuffix | finances.py:46 | on a newline-free line the amount is a suffix ending in a digit, `.` and two digits, has only digits, `?` and `,` before the `.`, and is preceded by no such character |
| Fields.MaximalSuffixIsAmount | finances.py:46 | conversely, the longest such suffix of a line is its amount |
| Fields.DescriptionStart | finances.py:49 | the description search matches at the leftmost index with a DD/DD and 24 more characters on the same line |
| Fields.DescriptionGroup | finances.py:49-50 | group 1 of the description search: the rest of the line after the leftmost DD/DD and 24 characters, or none |
| Fields.Description | finances.py:48-53 | the description appended for a line: "" when the search fails, otherwise group 1 with the stamped date removed |
| Fields.DescriptionGroupOfStatementLine | finances.py:49-51 | on a newline-free line starting with DD/DD, group 1 is everything after offset 29, and the search fails below 29 characters |
| Fields.DescriptionOfStatementLine | finances.py:48-53 | the description is "" below 29 characters and otherwise the text after offset 29 with the stamped date removed; a text without the date is kept whole |
| LineFinders.RunEnd | finances.py:8-9 | a greedy `[0-9]+` or `[0-9,]+`: where the longest run of class characters from an index ends |
| LineFinders.TailAt | finances.py:8 | the amount part of the credit card pattern matches up to an amount end, without crossing a newline |
| LineFinders.TailAtAmountEnd | finances.py:8 | the amount part matches from four characters before any amount end |
| LineFinders.Backtrack | finances.py:8 | backtracking `.*` ends, if at all, at an amount end on the same line |
| LineFinders.BacktrackFailsOnlyWithoutAmount | finances.py:8 | backtracking fails only when no start on the rest of the line works |
| LineFinders.BacktrackEndsLast | finances.py:8 | backtracking ends no earlier than any start on the rest of the line that works |
| LineFinders.BacktrackFindsLast | finances.py:8 | greedy `.*` followed by the amount part finds the last amount on the line, and fails only when there is none |
| LineFinders.CcMatchAt | finances.py:8 | a credit card match is at least nine characters long |
| LineFinders.CcMatchIsLastAmountOnLine | finances.py:8 | a match from p ends at e exactly when a DD/DD is at p and e ends the last amount on the rest of that line |
| LineFinders.CcSpans | finances.py:42 | `re.findall` returns matches in text order that do not overlap |
| LineFinders.CcLines | finances.py:42 | one line per match |
| LineFinders.OneMatchPerLine | finances.py:42 | after a match ends, its line ends before the next match starts |
| LineFinders.CcMatchTextWellFormed | finances.py:8 | the text of a match starts with DD/DD, ends with a digit, `.` and two digits, and holds no newline |
| LineFinders.CcLineWellFormed | finances.py:42 | each line found starts with DD/DD, ends with a digit, `.` and two digits, and holds no newline |
| LineFinders.CcLinesWellFormed | finances.py:42 | every line found is well formed and is the text at its span |
| LineFinders.CcLinesOnePerSegment | finances.py:42 | lines come in text order and each newline-separated segment yields at most one |
| LineFinders.CcSpansMissNothing | finances.py:42 | every index where the pattern could match lies inside a span found |
| LineFinders.ChMatchAt | finances.py:9 | the checking pattern matches exactly where its date part does, and its group is empty or starts with a newline |
| LineFinders.ChGroups | finances.py:73 | findall with the checking pattern returns group texts, each empty or starting with a newline |
| LineFinders.ChGroupsEmptyIff | finances.py:73 | the checking finder returns nothing exactly when no date starts in the text |
| LineFinders.ChDateHasDigitSlashDigit | finances.py:9 | a checking date match covers a digit, a slash and a digit |
| LineFinders.DigitSlashDigitIsChDate | finances.py:9 | a digit, a slash and a digit start a checking date match |
| LineFinders.ChGroupsNonEmptyIff | finances.py:73 | the checking finder returns something exactly when the text holds a digit, a slash and a digit |
| WellsFargo.Decimal | finances.py:44 | f"{YEAR}" writes a non-empty string of digits |
| WellsFargo.YearStamp | finances.py:44 | the stamp f"/{YEAR}" the credit card parser appends to each date |
| WellsFargo.StampsAgree | finances.py:78 | with YEAR at 2023, f"/{YEAR}" and the literal "/2023" are the same stamp |
| WellsFargo.Dates | finances.py:43-45 | the dates comprehension succeeds exactly when every line starts with a date, and then gives each line's date plus the stamp, in order |
| WellsFargo.DatesReportsFirstMissing | finances.py:43-45 | the dates comprehension raises for the first line without a date |
| WellsFargo.Money | finances.py:46 | the amounts comprehension succeeds exactly when every line has an amount, and then gives each line's amount, in order |
| WellsFargo.MoneyReportsFirstMissing | finances.py:46 | the amounts comprehension raises for the first line without an amount |
| WellsFargo.Frame | finances.py:54-61 | the DataFrame has one row per entry of its columns |
| WellsFargo.Statement | finances.py:43-61 | the body both parsers share after `findall`: dates, then amounts, each raising on the first line without a match, then descriptions, then the frame |
| WellsFargo.StatementRecords | finances.py:43-61 | a parse succeeds exactly when every line has a date and an amount, and then makes one record per line, in order, with the stamped date, the description, the amount text and the account's name |
| WellsFargo.StatementReportsMissingDate | finances.py:43-46 | a missing date raises for the first undated line, whatever the amounts |
| WellsFargo.StatementReportsMissingAmount | finances.py:43-46 | with every date present, a missing amount raises for the first line without one |
| WellsFargo.CollectDescriptions | finances.py:47-53 | the description loop gives, for each line, group 1 with the stamped date removed, or "" when the search fails |
| WellsFargo.ParseLines | finances.py:43-61 | the shared parser body computes the statement frame or the first exception |
| WellsFargo.CcLineFields | finances.py:44-46 | a credit card line's date is its first five characters and it has an amount |
| WellsFargo.CcStatementOk | finances.py:42-61 | the credit card parse never raises |
| WellsFargo.CcStatement | finances.py:42-61 | the credit card frame has one record per line found |
| WellsFargo.StatementLength | finances.py:54-61 | a successful parse has one record per line |
| WellsFargo.StatementRecordAt | finances.py:54-61 | the record made of the i-th line |
| WellsFargo.CcStatementRecordAt | finances.py:42-61 | the i-th credit card record: a ten-character date, the line's DD/DD plus "/2023"; the line's amount; the description rule; the account's name |
| WellsFargo.CcStatementRecords | finances.py:42-61 | every credit card record, one per line found and in order, is built from its line as above |
| WellsFargo.WfCcParse | finances.py:42-62 | wf_cc_parse_pdf from the extracted text gives the credit card frame |
| WellsFargo.SampleLineDate | finances.py:44 | the sample line's date is "03/14" |
| WellsFargo.SampleLineAmount | finances.py:46 | any line ending in " 45.67", the sample line among them, has the amount "45.67" |
| WellsFargo.SampleLineShape | finances.py:8 | the sample line starts with DD/DD and holds no newline |
| WellsFargo.SampleTextHasNoDate | finances.py:53 | the sample's text after offset 29 does not hold its stamped date |
| WellsFargo.SampleLineDescription | finances.py:48-53 | the sample line's description is its whole text after offset 29 |
| WellsFargo.SingleLineStatement | finances.py:43-61 | one line with a date and an amount parses to one record with the stamped date, its description, its amount and the account's name |
| WellsFargo.SampleLineFields | finances.py:44-53 | the sample line's stamped date "03/14/2023", amount "45.67" and description |
| WellsFargo.SampleLineRecord | finances.py:42-61 | the sample line on its own parses to the record "03/14/2023", "3456789012PURCHASE DESC 45.67", "45.67", "WELLS_FARGO_CREDIT_CARD" |
| WellsFargo.GroupHasNoDate | finances.py:78 | neither an empty group nor one starting with a newline begins with a date |
| WellsFargo.ChStatement | finances.py:73-95 | the checking parser: the shared body on the checking finder's group texts with the literal stamp "/2023" |
| WellsFargo.ChStatementFailsOnAnyDate | finances.py:73-95 | the checking parser raises for its first group exactly when the text holds a digit, a slash and a digit, and otherwise returns an empty frame |
| WellsFargo.WfChParse | finances.py:73-95 | wf_ch_parse_pdf from the extracted text gives the checking outcome |
| CsvStatements.Negate | finances.py:127 | `-1 *` on an amount entry, a missing entry staying missing |
| CsvStatements.Plus | finances.py:132 | `+` on two entries, missing when either is |
| CsvStatements.FillNa | finances.py:138 | `fillna(v)` on an entry: the entry when present, otherwise v |
| CsvStatements.NegateInvolution | finances.py:127 | negating a column twice gives it back |
| CsvStatements.ChaseColumnsAreLedgerColumns | finances.py:125-128 | selection, the Account column and the rename give Date, Description, Amount, Account |
| CsvStatements.ChaseFrame | finances.py:123-128 | the Chase frame has as many rows as the export |
| CsvStatements.ChaseSource | finances.py:125-127 | the export read back off a frame has as many rows as the frame |
| CsvStatements.ChaseFrameRoundTrip | finances.py:125-128 | the export is recovered from the frame: the columns are kept and the amount is negated |
| CsvStatements.ChaseSignConvention | finances.py:126-127 | every row is tagged CHASE_CREDIT_CARD, every amount changes sign, and a missing amount stays missing |
| CsvStatements.ChaseFrameConcat | finances.py:123-128 | the transform works row by row: two exports back to back give the two frames back to back |
| CsvStatements.FirstRepublicColumnsDiffer | finances.py:133 | the First Republic frames keep Statement Description and so do not have the ledger's columns |
| CsvStatements.CheckingAmount | finances.py:132 | the checking amount -(Debit + Credit) of one row |
| CsvStatements.MortgageAmount | finances.py:137-139 | the mortgage amount -(Debit.fillna(0) + Credit) of one row |
| CsvStatements.FirstRepublicAmountCases | finances.py:132-139 | both variants give -(Debit + Credit); a missing Debit makes only the checking amount missing; a missing Credit makes both missing |
| CsvStatements.MortgageExtendsChecking | finances.py:132-139 | the mortgage amount agrees with the checking amount wherever that is present, and is present exactly when Credit is |
| CsvStatements.FirstRepublicCheckingFrame | finances.py:130-134 | the checking frame keeps the row count, dates and descriptions |
| CsvStatements.FirstRepublicMortgageFrame | finances.py:135-141 | the mortgage frame keeps the row count, dates and descriptions |
| CsvStatements.FrameVariantsAgreeWithoutGaps | finances.py:132-139 | on an export with every Debit present both variants give the same frame |
| Aggregator.Join | finances.py:103 | `os.path.join` ends with the file name and, for a relative name, starts with the directory |
| Aggregator.PathOf | finances.py:103 | the path the account is looked up from: the directory joined with the file name |
| Aggregator.PdfFrames | finances.py:106-120 | the PDF branch for an account: the checking frame or its exception, the credit card frame, or nothing for the other accounts |
| Aggregator.CsvFrames | finances.py:122-141 | the CSV branch for an account: the Chase frame for the Chase card, nothing for the others |
| Aggregator.FileFrames | finances.py:102-141 | one file: the lookup, then the PDF branch when the name holds ".pdf", then the CSV branch when it holds ".csv" |
| Aggregator.Walk | finances.py:100-141 | the loop over the files: the frames each appends, in order, or the first exception |
| Aggregator.Flatten | finances.py:143 | the rows of the frames, one frame after another |
| Aggregator.Concatenated | finances.py:143 | `pd.concat` on the collected list: the flattened rows, or the error of an empty list |
| Aggregator.Aggregated | finances.py:98-143 | `main`: the walk over the files followed by the concatenation |
| Aggregator.FlattenAppend | finances.py:143 | `pd.concat` keeps the frames' order |
| Aggregator.WalkAppend | finances.py:100-141 | walking two groups of files is walking the first and then the second; the first exception ends the walk |
| Aggregator.WalkStep | finances.py:100-141 | one more file appends its frames to those collected so far |
| Aggregator.WalkAbort | finances.py:100-141 | an exception from a file ends the walk with that exception |
| Aggregator.WalkOutcome | finances.py:100-141 | the walk raises exactly when some file raises, and collects nothing exactly when every file adds nothing |
| Aggregator.WalkDropSilent | finances.py:100-141 | a file that adds nothing can be dropped from the walk |
| Aggregator.AggregatedOutcome | finances.py:98-143 | the run raises exactly when some file raises or no file adds a frame |
| Aggregator.AggregatedAppend | finances.py:98-143 | two successful runs over consecutive groups give the rows of the first followed by those of the second |
| Aggregator.AggregatedDropSilent | finances.py:98-143 | dropping a file that adds nothing leaves the ledger as it was |
| Aggregator.UnknownAccountRaises | finances.py:103-104 | a path with no token ends the run with the lookup's exception |
| Aggregator.FirstRepublicAddsNothing | finances.py:130-141 | a First Republic file adds no frame |
| Aggregator.ChaseCsvAddsItsFrame | finances.py:106-129 | a Chase file whose name holds ".csv" adds exactly its frame, also when the name holds ".pdf" |
| Aggregator.PdfFileAddsItsParse | finances.py:106-120 | a PDF of any account but the Chase card adds what that account's parser gives |
| Aggregator.CreditCardPdfAddsItsFrame | finances.py:114-120 | a Wells Fargo credit card PDF adds its parsed frame and never raises |
| Aggregator.CheckingPdfOutcome | finances.py:107-113 | a Wells Fargo checking PDF raises exactly when its text holds a digit, a slash and a digit, and otherwise adds one empty frame |
| Aggregator.UntypedFileAddsNothing | finances.py:106-122 | a file whose name holds neither ".pdf" nor ".csv" adds nothing |
| Aggregator.CreditCardFrameIsTagged | finances.py:59 | every record of the Wells Fargo credit card frame is tagged WELLS_FARGO_CREDIT_CARD |
| Aggregator.PdfRowsAreCardRows | finances.py:106-120 | a PDF adds only credit card rows: the checking frame is always empty |
| Aggregator.CsvRowsAreCardRows | finances.py:122-141 | a CSV adds only Chase rows |
| Aggregator.FileRowsAreCardRows | finances.py:104-141 | a file adds only credit card rows |
| Aggregator.WalkCardRows | finances.py:100-141 | a walk whose every step adds only credit card rows collects only credit card rows |
| Aggregator.FlattenCardRows | finances.py:143 | concatenating frames of credit card rows gives credit card rows |
| Aggregator.LedgerHoldsOnlyCardRows | finances.py:98-143 | every row of the aggregated ledger is tagged CHASE_CREDIT_CARD or WELLS_FARGO_CREDIT_CARD |
| Aggregator.FirstRepublicWalkIsEmpty | finances.py:130-141 | a walk over First Republic files collects no frame |
| Aggregator.ChaseWalk | finances.py:106-129 | a walk over a single Chase file whose name holds ".csv" collects its frame |
| Aggregator.ChaseWithFirstRepublic | finances.py:122-143 | a Chase export followed by First Republic exports gives exactly the Chase rows |
| Aggregator.AccountFromDirectory | finances.py:103-104 | the token can come from the directory: "jan.csv" in "./statements/CCC" is a Chase export |
| Aggregator.ParsePdf | finances.py:106-120 | the PDF branch appends the checking or credit card frame, or the exception, and skips other accounts |
| Aggregator.TransformCsv | finances.py:122-141 | the CSV branch appends the Chase frame and builds and drops the First Republic frames |
| Aggregator.ProcessFile | finances.py:102-141 | the loop body for one file gives the frames it appends or the exception it raises |
| Aggregator.Aggregate | finances.py:98-143 | `main` gives the concatenated ledger, or the first exception, or the error of concatenating no frames |

## Left out

- File and PDF reading: `open`, `PdfReader`, the page-text loop and `pd.read_csv`. The model takes the extracted text and the parsed rows as inputs, one `StatementFile` per file.
- `os.walk`: its order and the file system are not modelled. The walk is given as the sequence of files it yields.
- `tqdm` progress output, the `print` of the account, and `to_csv`, including the index column it writes.
- `IPython.embed()` in the checking parser. It is an interactive shell; the model assumes it returns and changes nothing.
- Floating point: amounts in the CSV transforms are exact integer cents, and NaN is `None`. Rounding is not modelled. PDF amounts stay the matched strings, as in the source.
- pandas mechanics. These include:
  - the KeyError raised when an export lacks a selected column;
  - index alignment;
  - in-place column assignment and `rename`;
  - `pd.concat` aligning frames whose columns differ.

  A frame is a sequence of records. The First Republic frames are never appended, so their column names never reach the ledger.
- The year stamp: `YEAR` is the constant 2023, as in the source. A different year is not modelled.
