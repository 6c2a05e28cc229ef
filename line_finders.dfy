/** `re.findall` with the two Wells Fargo line patterns (finances.py:8-9):
      credit card: [0-9]{2}\/[0-9]{2}.*[0-9]+\.[0-9]{2}
      checking:    [0-9]{1,2}\/[0-9]{1,2}.*(\n.*[0-9,]+\.[0-9]{2})?
    `findall` tries a match at each index from left to right and, after a
    match, resumes at its end. `.` does not match a newline and `.*` is
    greedy: it runs to the end of the line and then gives characters back one
    at a time until the rest of the pattern matches. */
module LineFinders {
  import opened Ledger
  import opened Strings
  import opened Fields

  /** The repeated class before the `.` of an amount: `[0-9]` in the credit
      card pattern, `[0-9,]` in the checking pattern. */
  datatype RunClass = Digits | DigitsOrCommas

  predicate InClass(c: char, cls: RunClass) {
    IsDigit(c) || (cls == DigitsOrCommas && c == ',')
  }

  /** End of the longest run of class characters starting at `q`. */
  function RunEnd(s: string, q: nat, cls: RunClass): (r: nat)
    requires q <= |s|
    ensures q <= r <= |s|
    ensures forall k :: q <= k < r ==> InClass(s[k], cls)
    ensures r < |s| ==> !InClass(s[r], cls)
    decreases |s| - q
  {
    if q == |s| || !InClass(s[q], cls) then q else RunEnd(s, q + 1, cls)
  }

  /** An amount ends at `e`: a class character, `.`, two digits. */
  predicate AmountEndsAt(s: string, e: nat, cls: RunClass) {
    4 <= e <= |s| && InClass(s[e - 4], cls) && s[e - 3] == '.' && IsDigit(s[e - 2]) && IsDigit(s[e - 1])
  }

  /** The amount part of a pattern (`[0-9]+\.[0-9]{2}` or its comma
      variant) tried at `q`; its end on success. The run is taken greedily;
      giving characters back cannot help, since the character after a
      shorter run is a class character and not the `.`. */
  function TailAt(s: string, q: nat, cls: RunClass): (r: Option<nat>)
    requires q <= |s|
    ensures r.Some? ==> q + 4 <= r.value && AmountEndsAt(s, r.value, cls)
    ensures r.Some? ==> forall k :: q <= k < r.value ==> s[k] != '\n'
  {
    var run := RunEnd(s, q, cls);
    if run > q && run + 3 <= |s| && s[run] == '.' && IsDigit(s[run + 1]) && IsDigit(s[run + 2])
    then Some(run + 3)
    else None
  }

  /** The amount part matches from four characters before any amount end. */
  lemma TailAtAmountEnd(s: string, e: nat, cls: RunClass)
    requires AmountEndsAt(s, e, cls)
    ensures TailAt(s, e - 4, cls) == Some(e)
  {
    assert RunEnd(s, e - 4, cls) == e - 3;
  }

  /** Of two successful tries, the later start never ends earlier. */
  lemma TailMonotone(s: string, q1: nat, q2: nat, cls: RunClass)
    requires q1 < q2 <= |s|
    requires TailAt(s, q1, cls).Some? && TailAt(s, q2, cls).Some?
    ensures TailAt(s, q1, cls).value <= TailAt(s, q2, cls).value
  {
    var r1, r2 := RunEnd(s, q1, cls), RunEnd(s, q2, cls);
    if q2 < r1 {
      assert r1 == r2;
    }
  }

  /** Backtracking of a greedy `.*` that started at `lo` and now stands at
      `q`: try the amount part at q, q-1, ..., lo and keep the first success. */
  function Backtrack(s: string, lo: nat, q: nat, cls: RunClass): (r: Option<nat>)
    requires lo <= q <= |s| && q <= LineEnd(s, lo)
    ensures r.Some? ==> lo + 4 <= r.value <= LineEnd(s, lo) && AmountEndsAt(s, r.value, cls)
    decreases q
  {
    match TailAt(s, q, cls)
    case Some(e) => Some(e)
    case None => if q == lo then None else Backtrack(s, lo, q - 1, cls)
  }

  /** Backtracking fails only when no start in [lo, q] works. */
  lemma {:induction false} BacktrackFailsOnlyWithoutAmount(s: string, lo: nat, q: nat, cls: RunClass)
    requires lo <= q <= |s| && q <= LineEnd(s, lo)
    requires Backtrack(s, lo, q, cls).None?
    ensures forall q': nat :: lo <= q' <= q ==> TailAt(s, q', cls).None?
    decreases q
  {
    if q > lo {
      BacktrackFailsOnlyWithoutAmount(s, lo, q - 1, cls);
    }
  }

  /** A successful backtrack ends no earlier than any start in [lo, q]
      that works. */
  lemma {:induction false} BacktrackEndsLast(s: string, lo: nat, q: nat, cls: RunClass, q': nat)
    requires lo <= q <= |s| && q <= LineEnd(s, lo)
    requires lo <= q' <= q && TailAt(s, q', cls).Some?
    ensures Backtrack(s, lo, q, cls).Some? && TailAt(s, q', cls).value <= Backtrack(s, lo, q, cls).value
    decreases q
  {
    match TailAt(s, q, cls)
    case Some(e) =>
      if q' < q {
        TailMonotone(s, q', q, cls);
      }
    case None =>
      BacktrackEndsLast(s, lo, q - 1, cls, q');
  }

  /** Backtracking finds the last amount: it fails only when no start in
      [lo, q] works, and otherwise ends no earlier than any start that works. */
  lemma BacktrackFindsLast(s: string, lo: nat, q: nat, cls: RunClass)
    requires lo <= q <= |s| && q <= LineEnd(s, lo)
    ensures Backtrack(s, lo, q, cls).None? ==>
      forall q': nat :: lo <= q' <= q ==> TailAt(s, q', cls).None?
    ensures Backtrack(s, lo, q, cls).Some? ==>
      forall q': nat :: lo <= q' <= q && TailAt(s, q', cls).Some? ==>
        TailAt(s, q', cls).value <= Backtrack(s, lo, q, cls).value
  {
    if Backtrack(s, lo, q, cls).None? {
      BacktrackFailsOnlyWithoutAmount(s, lo, q, cls);
    }
    forall q': nat | lo <= q' <= q && TailAt(s, q', cls).Some?
      ensures TailAt(s, q', cls).value <= Backtrack(s, lo, q, cls).value
    {
      BacktrackEndsLast(s, lo, q, cls, q');
    }
  }

  // ------------------------------------------------- credit card pattern

  /** The credit card pattern tried at `p`; the match end on success. */
  function CcMatchAt(s: string, p: nat): (r: Option<nat>)
    requires p <= |s|
    ensures r.Some? ==> p + 9 <= r.value <= |s|
  {
    if DDSlashDDAt(s, p) then Backtrack(s, p + 5, LineEnd(s, p + 5), Digits) else None
  }

  /** The declarative reading of a credit card match from `p` to `e`: a
      DD/DD at `p`, and `e` is the end of the last `d.dd` on the rest of
      that line. */
  predicate CcMatchSpec(s: string, p: nat, e: nat) {
    && DDSlashDDAt(s, p)
    && p + 9 <= e <= LineEnd(s, p + 5)
    && AmountEndsAt(s, e, Digits)
    && forall e': nat :: e < e' <= LineEnd(s, p + 5) ==> !AmountEndsAt(s, e', Digits)
  }

  /** The backtracking matcher and the declarative reading agree. */
  lemma CcMatchIsLastAmountOnLine(s: string, p: nat, e: nat)
    requires p <= |s|
    ensures CcMatchAt(s, p) == Some(e) <==> CcMatchSpec(s, p, e)
  {
    if DDSlashDDAt(s, p) {
      var lo, h := p + 5, LineEnd(s, p + 5);
      BacktrackFindsLast(s, lo, h, Digits);
      if CcMatchAt(s, p) == Some(e) {
        forall e': nat | e < e' <= h ensures !AmountEndsAt(s, e', Digits) {
          if AmountEndsAt(s, e', Digits) {
            TailAtAmountEnd(s, e', Digits);
          }
        }
      }
      if CcMatchSpec(s, p, e) {
        TailAtAmountEnd(s, e, Digits);
        var m := CcMatchAt(s, p).value;
        assert e <= m;
        assert AmountEndsAt(s, m, Digits);
      }
    }
  }

  /** `re.findall` with the credit card pattern from index `p`: the spans
      of the matches, in text order. */
  function CcSpans(s: string, p: nat): (r: seq<(nat, nat)>)
    requires p <= |s|
    ensures forall i :: 0 <= i < |r| ==> p <= r[i].0 <= |s| && CcMatchAt(s, r[i].0) == Some(r[i].1)
    ensures forall i :: 0 <= i < |r| - 1 ==> r[i].1 <= r[i + 1].0
    decreases |s| - p
  {
    if p == |s| then []
    else match CcMatchAt(s, p)
      case Some(e) => [(p, e)] + CcSpans(s, e)
      case None => CcSpans(s, p + 1)
  }

  /** The lines `re.findall` returns for the credit card pattern. */
  function CcLines(s: string): (lines: seq<string>)
    ensures |lines| == |CcSpans(s, 0)|
  {
    var spans := CcSpans(s, 0);
    seq(|spans|, i requires 0 <= i < |spans| => s[spans[i].0..spans[i].1])
  }

  /** Two matches never start on the same line: after the first match ends,
      its line ends before the next match starts. */
  lemma OneMatchPerLine(s: string, p1: nat, e1: nat, p2: nat, e2: nat)
    requires p1 <= |s| && p2 <= |s|
    requires CcMatchAt(s, p1) == Some(e1) && CcMatchAt(s, p2) == Some(e2)
    requires e1 <= p2
    ensures LineEnd(s, e1) < p2
  {
    CcMatchIsLastAmountOnLine(s, p1, e1);
    CcMatchIsLastAmountOnLine(s, p2, e2);
    // The second amount lies beyond the first line, so that line ends at a
    // newline between the two matches; the second match holds no newline.
    var n := LineEnd(s, p1 + 5);
    assert n < e2;
    assert e1 <= n < |s| && s[n] == '\n';
    assert LineEnd(s, e1) <= n;
    assert !(p2 <= n < p2 + 5);
    assert !(p2 + 5 <= n < e2);
  }

  /** The text of a credit card match starts with DD/DD, ends with a
      digit, `.` and two digits, and holds no newline. */
  lemma CcMatchTextWellFormed(s: string, p: nat, e: nat)
    requires p <= |s| && CcMatchAt(s, p) == Some(e)
    ensures var l := s[p..e];
      && DDSlashDDAt(l, 0) && 9 <= |l| && AmountEndsAt(l, |l|, Digits)
      && (forall k :: 0 <= k < |l| ==> l[k] != '\n')
  {
    CcMatchIsLastAmountOnLine(s, p, e);
    var l := s[p..e];
    assert forall k :: 0 <= k < |l| ==> l[k] == s[p + k];
    assert DDSlashDDAt(l, 0);
    assert AmountEndsAt(l, |l|, Digits);
    forall k | 0 <= k < |l| ensures l[k] != '\n' {
      if k >= 5 {
        assert p + k < LineEnd(s, p + 5);
      }
    }
  }

  /** The `i`-th line found starts with DD/DD, ends with a digit, `.` and
      two digits, and holds no newline. */
  lemma CcLineWellFormed(s: string, i: nat)
    requires i < |CcLines(s)|
    ensures var l := CcLines(s)[i];
      && DDSlashDDAt(l, 0) && 9 <= |l| && AmountEndsAt(l, |l|, Digits)
      && (forall k :: 0 <= k < |l| ==> l[k] != '\n')
  {
    var (p, e) := CcSpans(s, 0)[i];
    CcMatchTextWellFormed(s, p, e);
  }

  /** Every line found starts with DD/DD, ends with a digit, `.` and two
      digits, holds no newline, and is the text at its span. */
  lemma CcLinesWellFormed(s: string)
    ensures forall i :: 0 <= i < |CcLines(s)| ==>
      var l := CcLines(s)[i];
      && DDSlashDDAt(l, 0) && 9 <= |l| && AmountEndsAt(l, |l|, Digits)
      && (forall k :: 0 <= k < |l| ==> l[k] != '\n')
      && l == s[CcSpans(s, 0)[i].0..CcSpans(s, 0)[i].1]
  {
    forall i | 0 <= i < |CcLines(s)|
      ensures var l := CcLines(s)[i];
        && DDSlashDDAt(l, 0) && 9 <= |l| && AmountEndsAt(l, |l|, Digits)
        && (forall k :: 0 <= k < |l| ==> l[k] != '\n')
    {
      CcLineWellFormed(s, i);
    }
  }

  /** Lines come in text order, and each newline-separated segment of the
      text contributes at most one of them. */
  lemma CcLinesOnePerSegment(s: string)
    ensures forall i :: 0 <= i < |CcSpans(s, 0)| - 1 ==>
      var spans := CcSpans(s, 0);
      spans[i].0 < spans[i].1 <= LineEnd(s, spans[i].1) < spans[i + 1].0
  {
    var spans := CcSpans(s, 0);
    forall i | 0 <= i < |spans| - 1
      ensures spans[i].0 < spans[i].1 <= LineEnd(s, spans[i].1) < spans[i + 1].0
    {
      OneMatchPerLine(s, spans[i].0, spans[i].1, spans[i + 1].0, CcMatchAt(s, spans[i + 1].0).value);
    }
  }

  /** No match is missed: every index where the pattern could match lies
      inside one of the spans found. */
  lemma {:induction false} CcSpansMissNothing(s: string, p: nat, q: nat)
    requires p <= q < |s| && CcMatchAt(s, q).Some?
    ensures exists i :: 0 <= i < |CcSpans(s, p)| && CcSpans(s, p)[i].0 <= q < CcSpans(s, p)[i].1
    decreases |s| - p
  {
    match CcMatchAt(s, p)
    case Some(e) =>
      if e <= q {
        CcSpansMissNothing(s, e, q);
      }
      SpanCoveredAfterHead((p, e), CcSpans(s, e), q);
      CcSpansAtMatch(s, p, e);
    case None =>
      CcSpansMissNothing(s, p + 1, q);
      CcSpansPastMiss(s, p);
  }

  /** findall records a match found at `p` and resumes where it ends. */
  lemma CcSpansAtMatch(s: string, p: nat, e: nat)
    requires p < |s| && CcMatchAt(s, p) == Some(e)
    ensures CcSpans(s, p) == [(p, e)] + CcSpans(s, e)
  {
  }

  /** findall moves one character on where the pattern does not match. */
  lemma CcSpansPastMiss(s: string, p: nat)
    requires p < |s| && CcMatchAt(s, p).None?
    ensures CcSpans(s, p) == CcSpans(s, p + 1)
  {
  }

  /** A span list covers `q` once a span covering `q` is put in front, or
      once its tail already covers it. */
  lemma SpanCoveredAfterHead(x: (nat, nat), r: seq<(nat, nat)>, q: nat)
    requires x.0 <= q < x.1 || exists i :: 0 <= i < |r| && r[i].0 <= q < r[i].1
    ensures exists i :: 0 <= i < |[x] + r| && ([x] + r)[i].0 <= q < ([x] + r)[i].1
  {
    if !(x.0 <= q < x.1) {
      var i :| 0 <= i < |r| && r[i].0 <= q < r[i].1;
      assert ([x] + r)[i + 1] == r[i];
      assert ([x] + r)[i + 1].0 <= q < ([x] + r)[i + 1].1;
    } else {
      assert ([x] + r)[0] == x;
    }
  }

  // ---------------------------------------------------- checking pattern

  /** The checking pattern's date part `[0-9]{1,2}\/[0-9]{1,2}` matches at `p`. */
  predicate ChDateAt(s: string, p: nat) {
    p <= |s| && DateSplit(s[p..]).Some?
  }

  /** A checking match: where it ends and the text of its one group. */
  datatype ChMatch = ChMatch(end: nat, group: string)

  /** The checking pattern tried at `p`. After the date, `.*` runs to the end
      of the line; the optional group is tried there (a newline, the next
      line, a `[0-9,]+\.[0-9]{2}` amount) and, when it fails, is skipped. */
  function ChMatchAt(s: string, p: nat): (r: Option<ChMatch>)
    requires p <= |s|
    ensures r.Some? <==> ChDateAt(s, p)
    ensures r.Some? ==> p < r.value.end <= |s|
    ensures r.Some? ==> r.value.group == [] || r.value.group[0] == '\n'
  {
    match DateSplit(s[p..])
    case None => None
    case Some((a, b)) =>
      var h := LineEnd(s, p + a + 1 + b);
      if h < |s| then
        match Backtrack(s, h + 1, LineEnd(s, h + 1), DigitsOrCommas)
        case Some(e) => Some(ChMatch(e, s[h..e]))
        case None => Some(ChMatch(h, ""))
      else Some(ChMatch(h, ""))
  }

  /** `re.findall` with the checking pattern from index `p`. The pattern has
      one capturing group, so findall returns that group's text for each
      match ("" when the group took no part), not the whole match. */
  function ChGroups(s: string, p: nat): (r: seq<string>)
    requires p <= |s|
    ensures forall i :: 0 <= i < |r| ==> r[i] == [] || r[i][0] == '\n'
    decreases |s| - p
  {
    if p == |s| then []
    else match ChMatchAt(s, p)
      case Some(m) => [m.group] + ChGroups(s, m.end)
      case None => ChGroups(s, p + 1)
  }

  /** The checking finder returns nothing exactly when no date starts at or
      after `p`. */
  lemma {:induction false} ChGroupsEmptyIff(s: string, p: nat)
    requires p <= |s|
    ensures ChGroups(s, p) == [] <==> forall q: nat :: p <= q < |s| ==> !ChDateAt(s, q)
    decreases |s| - p
  {
    if p < |s| {
      match ChMatchAt(s, p)
      case Some(m) =>
        assert ChDateAt(s, p);
      case None =>
        ChGroupsEmptyIff(s, p + 1);
        assert !ChDateAt(s, p);
    }
  }

  /** A digit, a slash and a digit at `i`. */
  predicate DigitSlashDigitAt(s: string, i: nat) {
    i + 3 <= |s| && IsDigit(s[i]) && s[i + 1] == '/' && IsDigit(s[i + 2])
  }

  /** A checking date match covers a digit, a slash and a digit. */
  lemma ChDateHasDigitSlashDigit(s: string, q: nat)
    requires ChDateAt(s, q)
    ensures exists i: nat :: DigitSlashDigitAt(s, i)
  {
    var l := s[q..];
    var (a, b) := DateSplit(l).value;
    assert l[a - 1] == s[q + a - 1] && l[a] == s[q + a] && l[a + 1] == s[q + a + 1];
    assert DigitSlashDigitAt(s, q + a - 1);
  }

  /** A digit, a slash and a digit start a checking date match. */
  lemma DigitSlashDigitIsChDate(s: string, i: nat)
    requires DigitSlashDigitAt(s, i)
    ensures ChDateAt(s, i)
  {
    var l := s[i..];
    assert l[0] == s[i] && l[1] == s[i + 1] && l[2] == s[i + 2];
    assert DateShape(l, 1, 1);
  }

  /** The checking finder returns something exactly when the text holds a
      digit, a slash and a digit. */
  lemma ChGroupsNonEmptyIff(s: string)
    ensures ChGroups(s, 0) != [] <==> exists i: nat :: DigitSlashDigitAt(s, i)
  {
    ChGroupsEmptyIff(s, 0);
    if ChGroups(s, 0) != [] {
      var q: nat :| q < |s| && ChDateAt(s, q);
      ChDateHasDigitSlashDigit(s, q);
    }
    if i: nat :| DigitSlashDigitAt(s, i) {
      DigitSlashDigitIsChDate(s, i);
    }
  }
}
