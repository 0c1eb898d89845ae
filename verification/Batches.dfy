/** A connector's draft resolved into payments, or refused with every bad row named. */
module Batches {
  import opened Common
  import Words
  import Money
  import Decimal
  import Sorting
  import TabularAmount

  const MAX_BATCH_ROWS := 90
  const MEMO_LENGTH := 28

  datatype DraftRow = DraftRow(line: int, amountText: string, destinationText: string, memoText: string)

  datatype Row = Row(line: int, amount: int, destination: string, display: string, memo: string,
                     saidAmount: string, saidDestination: string)

  datatype Reason =
    | Amount(why: TabularAmount.Unreadable)
    | SecondReading(error: Money.ParseError)
    | NoDestination
    | WrongChecksum
    | NotSaved
    | MemoTooLong

  datatype RowResult = Paid(row: Row) | Failed(reason: Reason)

  datatype RowError = RowError(line: int, reason: Reason)

  datatype Resolution =
    | Batch(rows: seq<Row>, total: int, truncated: bool)
    | EmptyDraft
    | TooManyRows
    | BadRows(failures: seq<RowError>)
    | TotalOverflows
    | TotalNotPositive

  /** What a row is checked against: which texts are addresses, and who is saved by name. */
  datatype Directory = Directory(valid: string -> bool, saved: string -> Option<(string, string)>)

  datatype Destination = To(address: string, display: string) | Nowhere(reason: Reason)

  function ResolveDestination(dir: Directory, text: string): Destination {
    var t := Words.Trim(text);
    if t == "" then Nowhere(NoDestination)
    else if dir.valid(t) then To(t, t)
    else if t[0] == 'G' then Nowhere(WrongChecksum)
    else
      var found := dir.saved(t);
      if found.Some? then To(found.value.0, found.value.1) else Nowhere(NotSaved)
  }

  function ResolveRow(dir: Directory, row: DraftRow): RowResult {
    var refused := TabularAmount.Verdict(row.amountText);
    if refused.Some? then Failed(Amount(refused.value)) else
      var amount := Money.Parse(TabularAmount.Output(row.amountText));
      if amount.Bad? then Failed(SecondReading(amount.error)) else
        var to := ResolveDestination(dir, row.destinationText);
        var memo := Words.Trim(row.memoText);
        if to.Nowhere? then Failed(to.reason)
        else if |memo| > MEMO_LENGTH then Failed(MemoTooLong)
        else Paid(Row(row.line, amount.stroops, to.address, to.display, memo, row.amountText, row.destinationText))
  }

  /** A row that resolves pays exactly what its cell spells, which is more than nothing. */
  lemma PaidRowPaysTheCell(dir: Directory, row: DraftRow, g: seq<string>, frac: string)
    requires ResolveRow(dir, row).Paid?
    requires TabularAmount.Cell(TabularAmount.Body(row.amountText), g, frac)
    requires Decimal.AllDigits(TabularAmount.Flat(g))
    ensures ResolveRow(dir, row).row.amount == TabularAmount.Spelled(TabularAmount.Flat(g), frac)
    ensures 0 < ResolveRow(dir, row).row.amount <= MAX_INT64
  {
    hide TabularAmount.Verdict, TabularAmount.Output, Money.Parse, ResolveDestination, Words.Trim,
      TabularAmount.Cell, TabularAmount.Spelled, TabularAmount.Flat, TabularAmount.Body, Decimal.AllDigits;
    TabularAmount.OutputDenotes(row.amountText, g, frac);
    TabularAmount.AcceptedIsPositive(row.amountText, g, frac);
  }

  lemma PaidRowIsPositive(dir: Directory, row: DraftRow)
    requires ResolveRow(dir, row).Paid?
    ensures 0 < ResolveRow(dir, row).row.amount <= MAX_INT64
  {
    hide TabularAmount.Verdict, TabularAmount.Output, Money.Parse, ResolveDestination, Words.Trim,
      TabularAmount.Cell, TabularAmount.Spelled, TabularAmount.Flat, TabularAmount.Body, Decimal.AllDigits;
    TabularAmount.AcceptedIff(row.amountText);
    var t := TabularAmount.Body(row.amountText);
    var g, frac :| TabularAmount.Cell(t, g, frac) && Decimal.AllDigits(TabularAmount.Flat(g));
    PaidRowPaysTheCell(dir, row, g, frac);
  }

  // ----- what a row has to say -----

  /** Where a cell sends money: itself, if it is an address, or who is saved by that name. */
  predicate Sends(dir: Directory, cell: string, address: string, display: string) {
    var t := Words.Trim(cell);
    && t != ""
    && if dir.valid(t) then address == t && display == t
       else t[0] != 'G' && dir.saved(t) == Some((address, display))
  }

  predicate Placed(dir: Directory, cell: string) {
    var t := Words.Trim(cell);
    t != "" && (dir.valid(t) || (t[0] != 'G' && dir.saved(t).Some?))
  }

  predicate MemoFits(cell: string) {
    |Words.Trim(cell)| <= 28
  }

  /** The payment a draft row asks for: its amount, where it goes, and its own words. */
  ghost predicate PaysFor(dir: Directory, draft: DraftRow, row: Row) {
    && row.line == draft.line
    && TabularAmount.Reads(draft.amountText, row.amount) && 0 < row.amount <= MAX_INT64
    && Sends(dir, draft.destinationText, row.destination, row.display)
    && row.memo == Words.Trim(draft.memoText) && MemoFits(draft.memoText)
    && row.saidAmount == draft.amountText && row.saidDestination == draft.destinationText
  }

  ghost predicate AmountFits(cell: string) {
    exists n :: TabularAmount.Reads(cell, n) && n <= MAX_INT64
  }

  ghost predicate Payable(dir: Directory, draft: DraftRow) {
    AmountFits(draft.amountText) && Placed(dir, draft.destinationText) && MemoFits(draft.memoText)
  }

  /** The reason is a fact about the row. */
  ghost predicate IsWhy(dir: Directory, draft: DraftRow, reason: Reason) {
    var t := Words.Trim(draft.destinationText);
    match reason
    case Amount(_) => !exists n :: TabularAmount.Reads(draft.amountText, n)
    case SecondReading(error) =>
      error == Money.TooLarge && exists n :: TabularAmount.Reads(draft.amountText, n) && n > MAX_INT64
    case NoDestination => t == ""
    case WrongChecksum => t != "" && !dir.valid(t) && t[0] == 'G'
    case NotSaved => t != "" && !dir.valid(t) && t[0] != 'G' && dir.saved(t).None?
    case MemoTooLong => !MemoFits(draft.memoText)
  }

  /** A row resolves exactly when it can be paid, and then to the payment it asks for; and
      otherwise for a reason that is so. */
  lemma RowResolvesIff(dir: Directory, draft: DraftRow)
    ensures var r := ResolveRow(dir, draft);
            && (r.Paid? <==> Payable(dir, draft))
            && (r.Paid? ==> PaysFor(dir, draft, r.row))
            && (r.Failed? ==> IsWhy(dir, draft, r.reason))
  {
    hide TabularAmount.Verdict, TabularAmount.Output, TabularAmount.Reads, Money.Parse, Words.Trim;
    var text := draft.amountText;
    if TabularAmount.Verdict(text).None? {
      var n := TabularAmount.AcceptedReads(text);
      TabularAmount.OutputReads(text, n);
      forall m | TabularAmount.Reads(text, m) ensures m <= MAX_INT64 <==> n <= MAX_INT64 {
        TabularAmount.OutputReads(text, m);
      }
    } else {
      forall m ensures !TabularAmount.Reads(text, m) {
        if TabularAmount.Reads(text, m) {
          TabularAmount.OutputReads(text, m);
        }
      }
    }
  }

  // ----- all rows -----

  /** What one row adds to the report. */
  function FailureOf(line: int, r: RowResult): seq<RowError> {
    if r.Failed? then [RowError(line, r.reason)] else []
  }

  function Failures(dir: Directory, rows: seq<DraftRow>): seq<RowError> {
    if rows == [] then [] else
      var last := rows[|rows| - 1];
      Failures(dir, rows[..|rows| - 1]) + FailureOf(last.line, ResolveRow(dir, last))
  }

  function PaidRows(dir: Directory, rows: seq<DraftRow>): seq<Row> {
    if rows == [] then [] else
      var r := ResolveRow(dir, rows[|rows| - 1]);
      PaidRows(dir, rows[..|rows| - 1]) + if r.Paid? then [r.row] else []
  }

  function Amounts(rows: seq<Row>): (s: seq<int>)
    ensures |s| == |rows| && forall i :: 0 <= i < |s| ==> s[i] == rows[i].amount
  {
    seq(|rows|, i requires 0 <= i < |rows| => rows[i].amount)
  }

  predicate AllPaid(dir: Directory, rows: seq<DraftRow>) {
    forall i :: 0 <= i < |rows| ==> ResolveRow(dir, rows[i]).Paid?
  }

  lemma {:induction false} NoFailuresIff(dir: Directory, rows: seq<DraftRow>)
    ensures Failures(dir, rows) == [] <==> AllPaid(dir, rows)
    ensures AllPaid(dir, rows) ==> |PaidRows(dir, rows)| == |rows|
                                   && forall i :: 0 <= i < |rows| ==> PaidRows(dir, rows)[i] == ResolveRow(dir, rows[i]).row
  {
    hide ResolveRow;
    if rows != [] {
      NoFailuresIff(dir, rows[..|rows| - 1]);
    }
  }

  predicate Positive(s: seq<int>) {
    forall i :: 0 <= i < |s| ==> 0 < s[i] <= MAX_INT64
  }

  lemma {:induction false} PrefixIsLess(s: seq<int>, i: nat)
    requires i <= |s| && Positive(s)
    ensures 0 <= SumSeq(s[..i]) <= SumSeq(s)
    ensures i > 0 ==> SumSeq(s[..i]) > 0
    decreases |s| - i, i
  {
    if i < |s| {
      PrefixIsLess(s, i + 1);
      SumOneMore(s, i);
      SumNonNegative(s, i);
    } else {
      assert s[..i] == s;
      SumNonNegative(s, i);
    }
  }

  lemma {:induction false} SumNonNegative(s: seq<int>, i: nat)
    requires i <= |s| && Positive(s)
    ensures 0 <= SumSeq(s[..i]) && (i > 0 ==> SumSeq(s[..i]) > 0)
  {
    if i > 0 {
      SumOneMore(s, i - 1);
      SumNonNegative(s, i - 1);
    }
  }

  lemma SumOneMore(s: seq<int>, i: nat)
    requires i < |s|
    ensures SumSeq(s[..i + 1]) == SumSeq(s[..i]) + s[i]
  {
    assert s[..i + 1][..i] == s[..i];
  }

  /** The test for a wrapped addition finds every overflow of two amounts that are not negative. */
  lemma WrapShows(total: int, amount: int)
    requires 0 <= total <= MAX_INT64 && 0 < amount <= MAX_INT64
    ensures Wrap64(total + amount) < total <==> total + amount > MAX_INT64
    ensures total + amount <= MAX_INT64 ==> Wrap64(total + amount) == total + amount
  {
  }

  /** Adds amounts up; fails exactly when the true sum does not fit. */
  method CheckedTotal(amounts: seq<int>) returns (total: int, ok: bool)
    requires Positive(amounts)
    ensures ok <==> SumSeq(amounts) <= MAX_INT64
    ensures ok ==> total == SumSeq(amounts)
  {
    total := 0;
    for i := 0 to |amounts|
      invariant total == SumSeq(amounts[..i]) && 0 <= total <= MAX_INT64
    {
      var next := Wrap64(total + amounts[i]);
      WrapShows(total, amounts[i]);
      SumOneMore(amounts, i);
      PrefixIsLess(amounts, i + 1);
      if next < total {
        return 0, false;
      }
      total := next;
    }
    assert amounts[..|amounts|] == amounts;
    ok := true;
  }

  // ----- reporting in order -----

  predicate InOrder(fs: seq<RowError>) {
    forall i, j :: 0 <= i < j < |fs| ==> fs[i].line <= fs[j].line
  }

  method SortByLine(failures: seq<RowError>) returns (sorted: seq<RowError>)
    ensures InOrder(sorted) && multiset(sorted) == multiset(failures)
  {
    var byLine := (e: RowError, f: RowError) => e.line <= f.line;
    sorted := Sorting.Sort(failures, byLine);
    assert Sorting.Ordered(sorted, byLine);
    forall i, j | 0 <= i < j < |sorted| ensures sorted[i].line <= sorted[j].line {
      assert byLine(sorted[i], sorted[j]);
    }
  }

  // ----- resolving the batch -----

  /** A batch as ResolveBatch hands it on. */
  ghost predicate Sound(rows: seq<Row>, total: int) {
    && 1 <= |rows| <= MAX_BATCH_ROWS
    && Positive(Amounts(rows))
    && total == SumSeq(Amounts(rows)) <= MAX_INT64
  }

  ghost predicate AllPayable(dir: Directory, rows: seq<DraftRow>) {
    forall i :: 0 <= i < |rows| ==> Payable(dir, rows[i])
  }

  /** How many rows cannot be paid. */
  ghost function Unpayable(dir: Directory, rows: seq<DraftRow>): nat {
    if rows == [] then 0 else
      Unpayable(dir, rows[..|rows| - 1]) + if Payable(dir, rows[|rows| - 1]) then 0 else 1
  }

  ghost predicate Reports(dir: Directory, draft: DraftRow, f: RowError) {
    f.line == draft.line && !Payable(dir, draft) && IsWhy(dir, draft, f.reason)
  }

  /** One failure for each row that cannot be paid, in its line and with a true reason. */
  ghost predicate Accounts(dir: Directory, rows: seq<DraftRow>, fs: seq<RowError>) {
    && |fs| == Unpayable(dir, rows)
    && (forall f :: f in fs ==> exists i :: 0 <= i < |rows| && Reports(dir, rows[i], f))
    && (forall i :: 0 <= i < |rows| && !Payable(dir, rows[i]) ==> exists f :: f in fs && Reports(dir, rows[i], f))
  }

  /** One more row, and a failure for it if it cannot be paid. */
  lemma AccountsMore(dir: Directory, init: seq<DraftRow>, last: DraftRow, fs: seq<RowError>, more: seq<RowError>)
    requires Accounts(dir, init, fs)
    requires Payable(dir, last) ==> more == []
    requires !Payable(dir, last) ==> |more| == 1 && Reports(dir, last, more[0])
    ensures Accounts(dir, init + [last], fs + more)
  {
    hide Payable, Reports;
    var rows, all := init + [last], fs + more;
    assert rows[..|rows| - 1] == init;
    forall f | f in all ensures exists i :: 0 <= i < |rows| && Reports(dir, rows[i], f) {
      if f in fs {
        var i :| 0 <= i < |init| && Reports(dir, init[i], f);
        assert rows[i] == init[i];
      } else {
        assert f == more[0] && rows[|init|] == last;
      }
    }
    forall i | 0 <= i < |rows| && !Payable(dir, rows[i]) ensures exists f :: f in all && Reports(dir, rows[i], f) {
      if i < |init| {
        var f :| f in fs && Reports(dir, init[i], f);
        assert f in all && rows[i] == init[i];
      } else {
        assert more[0] in all && rows[i] == last;
      }
    }
  }

  lemma FailureReports(dir: Directory, draft: DraftRow)
    ensures var more := FailureOf(draft.line, ResolveRow(dir, draft));
            && (Payable(dir, draft) ==> more == [])
            && (!Payable(dir, draft) ==> |more| == 1 && Reports(dir, draft, more[0]))
    ensures ResolveRow(dir, draft).Paid? <==> Payable(dir, draft)
  {
    hide ResolveRow, Payable, IsWhy, PaysFor;
    RowResolvesIff(dir, draft);
  }

  lemma {:induction false} FailuresAccount(dir: Directory, rows: seq<DraftRow>)
    ensures Accounts(dir, rows, Failures(dir, rows))
    ensures AllPaid(dir, rows) <==> AllPayable(dir, rows)
  {
    hide ResolveRow, Payable, Reports, FailureOf;
    forall i | 0 <= i < |rows| ensures ResolveRow(dir, rows[i]).Paid? <==> Payable(dir, rows[i]) {
      FailureReports(dir, rows[i]);
    }
    if rows != [] {
      var init, last := rows[..|rows| - 1], rows[|rows| - 1];
      FailuresAccount(dir, init);
      FailureReports(dir, last);
      assert init + [last] == rows;
      hide Accounts, AllPaid, AllPayable;
      AccountsMore(dir, init, last, Failures(dir, init), FailureOf(last.line, ResolveRow(dir, last)));
    }
  }

  lemma SortedAccounts(dir: Directory, rows: seq<DraftRow>, fs: seq<RowError>, sorted: seq<RowError>)
    requires Accounts(dir, rows, fs) && multiset(sorted) == multiset(fs)
    ensures Accounts(dir, rows, sorted)
  {
    hide Reports, Payable;
    assert |sorted| == |multiset(sorted)| && |fs| == |multiset(fs)|;
    forall f ensures f in sorted <==> f in fs {
      assert f in multiset(sorted) <==> f in multiset(fs);
    }
  }

  /** The payments of a batch, row for row what the draft asks for. */
  ghost predicate PaysAll(dir: Directory, drafts: seq<DraftRow>, rows: seq<Row>) {
    |rows| == |drafts| && forall i :: 0 <= i < |drafts| ==> PaysFor(dir, drafts[i], rows[i])
  }

  lemma PaidRowsPayAll(dir: Directory, rows: seq<DraftRow>)
    requires AllPaid(dir, rows)
    ensures PaysAll(dir, rows, PaidRows(dir, rows))
  {
    NoFailuresIff(dir, rows);
    hide ResolveRow, PaysFor, PaidRows;
    forall i | 0 <= i < |rows| ensures PaysFor(dir, rows[i], PaidRows(dir, rows)[i]) {
      RowResolvesIff(dir, rows[i]);
    }
  }

  /** The cells spell amounts whose true sum does not fit. */
  ghost predicate TooMuch(dir: Directory, rows: seq<DraftRow>) {
    exists paid :: PaysAll(dir, rows, paid) && SumSeq(Amounts(paid)) > MAX_INT64
  }

  lemma IsTooMuch(dir: Directory, rows: seq<DraftRow>, paid: seq<Row>)
    requires PaysAll(dir, rows, paid) && SumSeq(Amounts(paid)) > MAX_INT64
    ensures TooMuch(dir, rows)
  {
    hide PaysAll, SumSeq, Amounts;
  }

  /** Every row is attempted, so the report is complete. */
  method ResolveRows(dir: Directory, rows: seq<DraftRow>) returns (paid: seq<Row>, failures: seq<RowError>)
    ensures paid == PaidRows(dir, rows) && failures == Failures(dir, rows)
  {
    hide ResolveRow;
    paid, failures := [], [];
    for i := 0 to |rows|
      invariant paid == PaidRows(dir, rows[..i]) && failures == Failures(dir, rows[..i])
    {
      assert rows[..i + 1][..i] == rows[..i];
      var resolved := ResolveRow(dir, rows[i]);
      if resolved.Failed? {
        failures := failures + [RowError(rows[i].line, resolved.reason)];
      } else {
        paid := paid + [resolved.row];
      }
    }
    assert rows[..|rows|] == rows;
  }

  /**
   ResolveBatch. It succeeds exactly when the draft has one to ninety rows, every row can be
   paid and the true total fits; it then has, row for row, the payments the draft asks for
   and their true total. Otherwise, if rows cannot be paid, it reports exactly those, each
   for a true reason, sorted by line.
   */
  method ResolveBatch(dir: Directory, rows: seq<DraftRow>, truncated: bool) returns (r: Resolution)
    ensures r.Batch? ==> PaysAll(dir, rows, r.rows) && Sound(r.rows, r.total) && r.truncated == truncated
    ensures r.EmptyDraft? <==> rows == []
    ensures r.TooManyRows? <==> |rows| > 90
    ensures r.BadRows? <==> 1 <= |rows| <= 90 && !AllPayable(dir, rows)
    ensures r.BadRows? ==> InOrder(r.failures) && Accounts(dir, rows, r.failures)
    ensures r.TotalOverflows? ==> 1 <= |rows| <= 90 && AllPayable(dir, rows) && TooMuch(dir, rows)
    ensures !r.TotalNotPositive?
  {
    hide PaidRows, Failures, PaysAll, PaysFor, Accounts, Reports, AllPayable, AllPaid, Payable, TooMuch,
      Positive, Amounts, SumSeq, Sound, InOrder;
    if |rows| == 0 {
      return EmptyDraft;
    }
    if |rows| > MAX_BATCH_ROWS {
      return TooManyRows;
    }
    var paid, failures := ResolveRows(dir, rows);
    FailuresAccount(dir, rows);
    FailuresOrPaid(dir, rows);
    if |failures| > 0 {
      var sorted := SortByLine(failures);
      SortedAccounts(dir, rows, failures, sorted);
      return BadRows(sorted);
    }
    PaidRowsPayAll(dir, rows);
    var total, ok := CheckedTotal(Amounts(paid));
    if !ok {
      IsTooMuch(dir, rows, paid);
      return TotalOverflows;
    }
    IsSound(dir, rows, paid);
    if total <= 0 {
      return TotalNotPositive;
    }
    return Batch(paid, total, truncated);
  }

  lemma FailuresOrPaid(dir: Directory, rows: seq<DraftRow>)
    ensures Failures(dir, rows) == [] <==> AllPaid(dir, rows)
    ensures AllPaid(dir, rows) ==> Positive(Amounts(PaidRows(dir, rows)))
  {
    hide ResolveRow, PaidRows, Failures, Positive, Amounts;
    NoFailuresIff(dir, rows);
    if AllPaid(dir, rows) {
      PaidArePositive(dir, rows);
    }
  }

  lemma IsSound(dir: Directory, drafts: seq<DraftRow>, rows: seq<Row>)
    requires PaysAll(dir, drafts, rows) && 1 <= |drafts| <= MAX_BATCH_ROWS
    requires Positive(Amounts(rows)) && SumSeq(Amounts(rows)) <= MAX_INT64
    ensures Sound(rows, SumSeq(Amounts(rows))) && SumSeq(Amounts(rows)) > 0
  {
    hide PaysFor, Positive, SumSeq;
    SumNonNegative(Amounts(rows), |rows|);
    assert Amounts(rows)[..|rows|] == Amounts(rows);
  }

  lemma PaidArePositive(dir: Directory, rows: seq<DraftRow>)
    requires AllPaid(dir, rows)
    ensures Positive(Amounts(PaidRows(dir, rows)))
  {
    NoFailuresIff(dir, rows);
    hide ResolveRow, PaidRows;
    forall i | 0 <= i < |rows| ensures 0 < ResolveRow(dir, rows[i]).row.amount <= MAX_INT64 {
      PaidRowIsPositive(dir, rows[i]);
    }
  }
}
