/** The per-line field extraction shared by both Wells Fargo parsers
    (finances.py:43-53 and 78-86). The date is the whole match of
    `^[0-9]{1,2}/[0-9]{1,2}`, the amount the whole match of
    `[0-9?,]*[0-9]+\.[0-9]{2}$`, and the description the first group of
    `[0-9]{2}\/[0-9]{2}.{24}(.*)` with every occurrence of the stamped date
    removed.
    Each search is written out as the choice Python's backtracking matcher
    makes, and proved equal to a declarative statement of that choice. */
module Fields {
  import opened Ledger
  import opened Strings

  // ---------------------------------------------------------------- date

  /** Number of consecutive digits at `i`, at most `limit`: a greedy
      `[0-9]{0,limit}`. */
  function LeadingDigits(s: string, i: nat, limit: nat): (n: nat)
    requires i <= |s|
    ensures n <= limit && i + n <= |s|
    ensures forall k :: i <= k < i + n ==> IsDigit(s[k])
    ensures n < limit && i + n < |s| ==> !IsDigit(s[i + n])
    decreases limit
  {
    if limit == 0 || i == |s| || !IsDigit(s[i]) then 0
    else 1 + LeadingDigits(s, i + 1, limit - 1)
  }

  /** `l` starts with `a` digits, a slash and `b` digits, as
      `^[0-9]{1,2}/[0-9]{1,2}` can match: one way to split the date. */
  predicate DateShape(l: string, a: nat, b: nat) {
    && 1 <= a <= 2 && 1 <= b <= 2 && a + 1 + b <= |l|
    && (forall k :: 0 <= k < a ==> IsDigit(l[k]))
    && l[a] == '/'
    && (forall k :: a < k <= a + b ==> IsDigit(l[k]))
  }

  /** The split the matcher settles on: the first quantifier greedily takes
      two digits and gives one back if no slash follows; the second takes as
      many digits as it can. */
  function DateSplit(l: string): (r: Option<(nat, nat)>)
    ensures r.Some? ==> DateShape(l, r.value.0, r.value.1)
    ensures r.Some? ==> forall a: nat, b: nat :: DateShape(l, a, b) ==> a == r.value.0 && b <= r.value.1
    ensures r.None? ==> forall a: nat, b: nat :: !DateShape(l, a, b)
  {
    var a := LeadingDigits(l, 0, 2);
    if a == 0 || a == |l| || l[a] != '/' then None
    else
      var b := LeadingDigits(l, a + 1, 2);
      if b == 0 then None else Some((a, b))
  }

  /** The date text at the start of a line, or None when the search fails. */
  function DatePrefix(l: string): Option<string> {
    match DateSplit(l)
    case None => None
    case Some((a, b)) => Some(l[..a + 1 + b])
  }

  /** The date found and its meaning: the match is a prefix of the line with
      the unique month width and the widest day the line allows; no match
      means the line does not start with such a date. */
  lemma DatePrefixMeaning(l: string)
    ensures DatePrefix(l).Some? <==> exists a: nat, b: nat :: DateShape(l, a, b)
    ensures DatePrefix(l).Some? ==>
      exists a: nat, b: nat :: (&& DateShape(l, a, b)
                                && DatePrefix(l).value == l[..a + 1 + b]
                                && forall b': nat :: DateShape(l, a, b') ==> b' <= b)
  {
    match DateSplit(l)
    case None =>
    case Some((a, b)) =>
      assert DateShape(l, a, b);
  }

  // -------------------------------------------------------------- amount

  /** The amount pattern's character class `[0-9?,]` (the `?` is literal). */
  predicate InAmountClass(c: char) { IsDigit(c) || c == '?' || c == ',' }

  /** The only place the amount pattern can end: `$` holds at the end and
      before a final newline, and no character of the pattern is a newline. */
  function AnchorEnd(l: string): (e: nat)
    ensures e <= |l|
    ensures e == |l| || (e == |l| - 1 && l[e] == '\n')
  {
    if |l| > 0 && l[|l| - 1] == '\n' then |l| - 1 else |l|
  }

  /** `[0-9?,]*[0-9]+\.[0-9]{2}$` matches the part of `l` starting at `p`. */
  predicate AmountMatchFrom(l: string, p: nat) {
    var e := AnchorEnd(l);
    && p + 4 <= e
    && (forall k :: p <= k < e - 3 ==> InAmountClass(l[k]))
    && IsDigit(l[e - 4]) && l[e - 3] == '.' && IsDigit(l[e - 2]) && IsDigit(l[e - 1])
  }

  /** Start of the run of `[0-9?,]` characters that ends at `j`. */
  function RunStart(l: string, j: nat): (k: nat)
    requires j <= |l|
    ensures k <= j
    ensures forall i :: k <= i < j ==> InAmountClass(l[i])
    ensures k > 0 ==> !InAmountClass(l[k - 1])
    decreases j
  {
    if j == 0 || !InAmountClass(l[j - 1]) then j else RunStart(l, j - 1)
  }

  /** Where `re.search` finds the amount: the leftmost index the pattern
      matches from, which is the start of the longest `[0-9?,]` run before
      the final `.dd`. */
  function AmountStart(l: string): (r: Option<nat>)
    ensures r.Some? ==> AmountMatchFrom(l, r.value)
    ensures r.Some? ==> forall p: nat :: p < r.value ==> !AmountMatchFrom(l, p)
    ensures r.None? ==> forall p: nat :: !AmountMatchFrom(l, p)
  {
    var e := AnchorEnd(l);
    if e >= 4 && IsDigit(l[e - 4]) && l[e - 3] == '.' && IsDigit(l[e - 2]) && IsDigit(l[e - 1])
    then Some(RunStart(l, e - 3))
    else None
  }

  /** The amount text, or None when the search fails. */
  function Amount(l: string): Option<string> {
    match AmountStart(l)
    case None => None
    case Some(k) => Some(l[k..AnchorEnd(l)])
  }

  /** On a line without a newline the amount is a suffix that ends in `.`
      and two digits, whose earlier characters are digits, `?` and `,` with a
      digit last, and that is preceded by no such character. */
  lemma AmountIsMaximalSuffix(l: string)
    requires forall k :: 0 <= k < |l| ==> l[k] != '\n'
    requires Amount(l).Some?
    ensures var a := Amount(l).value;
      && 4 <= |a| <= |l| && a == l[|l| - |a|..]
      && a[|a| - 3] == '.' && IsDigit(a[|a| - 2]) && IsDigit(a[|a| - 1]) && IsDigit(a[|a| - 4])
      && (forall k :: 0 <= k < |a| - 3 ==> InAmountClass(a[k]))
      && (|a| < |l| ==> !InAmountClass(l[|l| - |a| - 1]))
  {
    var k := AmountStart(l).value;
    assert AnchorEnd(l) == |l|;
    var a := l[k..];
    assert forall i :: 0 <= i < |a| - 3 ==> a[i] == l[k + i];
  }

  /** The run of `[0-9?,]` ending at `j` starts at `k` when every character
      in between is in the class and the one before `k` is not. */
  lemma {:induction false} RunStartAt(l: string, k: nat, j: nat)
    requires k <= j <= |l|
    requires forall i :: k <= i < j ==> InAmountClass(l[i])
    requires k == 0 || !InAmountClass(l[k - 1])
    ensures RunStart(l, j) == k
    decreases j
  {
    if j > k {
      RunStartAt(l, k, j - 1);
    }
  }

  /** Conversely, a line that ends in a digit, `.` and two digits has as its
      amount the longest suffix whose earlier characters are digits, `?` and
      `,`. */
  lemma MaximalSuffixIsAmount(l: string, k: nat)
    requires k + 4 <= |l|
    requires IsDigit(l[|l| - 4]) && l[|l| - 3] == '.' && IsDigit(l[|l| - 2]) && IsDigit(l[|l| - 1])
    requires forall i :: k <= i < |l| - 3 ==> InAmountClass(l[i])
    requires k == 0 || !InAmountClass(l[k - 1])
    ensures Amount(l) == Some(l[k..])
  {
    assert AnchorEnd(l) == |l|;
    RunStartAt(l, k, |l| - 3);
    assert AmountStart(l) == Some(k);
    assert l[k..AnchorEnd(l)] == l[k..];
  }

  // --------------------------------------------------------- description

  /** Two digits, a slash and two digits at `p`. */
  predicate DDSlashDDAt(s: string, p: nat) {
    p + 5 <= |s| && IsDigit(s[p]) && IsDigit(s[p + 1]) && s[p + 2] == '/' && IsDigit(s[p + 3]) && IsDigit(s[p + 4])
  }

  /** `[0-9]{2}\/[0-9]{2}.{24}` matches at `p`: a date and 24 more characters
      on the same line. */
  predicate DescriptionMatchAt(l: string, p: nat) {
    DDSlashDDAt(l, p) && p + 29 <= |l| && LineEnd(l, p + 5) >= p + 29
  }

  /** The leftmost index at or after `p` where the description pattern matches. */
  function DescriptionStart(l: string, p: nat): (r: Option<nat>)
    requires p <= |l|
    ensures r.Some? ==> p <= r.value && DescriptionMatchAt(l, r.value)
    ensures r.Some? ==> forall q: nat :: p <= q < r.value ==> !DescriptionMatchAt(l, q)
    ensures r.None? ==> forall q: nat :: p <= q ==> !DescriptionMatchAt(l, q)
    decreases |l| - p
  {
    if DescriptionMatchAt(l, p) then Some(p)
    else if p == |l| then None
    else DescriptionStart(l, p + 1)
  }

  /** Group 1 of the description search: the rest of the matched line. */
  function DescriptionGroup(l: string): Option<string> {
    match DescriptionStart(l, 0)
    case None => None
    case Some(p) => Some(l[p + 29..LineEnd(l, p + 29)])
  }

  /** The Description field: "" when the search fails, otherwise group 1
      with every occurrence of the stamped date removed. */
  function Description(l: string, date: string): string {
    match DescriptionGroup(l)
    case None => ""
    case Some(g) => ReplaceAll(g, date, "")
  }

  /** On a line that starts with DD/DD and holds no newline, the
      description search matches at the start exactly when the line reaches
      29 characters, and group 1 is the rest of the line. */
  lemma DescriptionGroupOfStatementLine(l: string)
    requires DDSlashDDAt(l, 0)
    requires forall k :: 0 <= k < |l| ==> l[k] != '\n'
    ensures DescriptionGroup(l) == if |l| < 29 then None else Some(l[29..])
  {
    if |l| >= 29 {
      LineEndBeyond(l, 5, |l|);
      LineEndBeyond(l, 29, |l|);
      assert DescriptionMatchAt(l, 0);
      assert DescriptionStart(l, 0) == Some(0);
      assert LineEnd(l, 29) == |l|;
      assert l[29..|l|] == l[29..];
    }
  }

  /** On such a line the description is "" below 29 characters and otherwise
      everything after offset 29 with the stamped date removed; a tail
      without the date is kept as it is. */
  lemma DescriptionOfStatementLine(l: string, date: string)
    requires DDSlashDDAt(l, 0)
    requires forall k :: 0 <= k < |l| ==> l[k] != '\n'
    ensures |l| < 29 ==> Description(l, date) == ""
    ensures |l| >= 29 ==> Description(l, date) == ReplaceAll(l[29..], date, "")
    ensures |l| >= 29 && |date| > 0 && !Contains(l[29..], date) ==> Description(l, date) == l[29..]
  {
    DescriptionGroupOfStatementLine(l);
    if |l| >= 29 && |date| > 0 && !Contains(l[29..], date) {
      ReplaceAbsent(l[29..], date, "");
    }
  }
}
