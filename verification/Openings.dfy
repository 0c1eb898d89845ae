/**
 Opening balances in closed form: after any list of new settlements, what was booked
 as opening for an account is exactly its largest deficit over all prefixes of what
 it paid and received.
 */
module Openings {
  import opened Common
  import opened Ledger
  import opened Ingestion
  import opened CrashSafety
  import opened Bookkeeping

  /** The signed amounts a request posts to an account, in order. */
  function PostingFlow(ps: seq<Posting>, a: Account, s: Asset): seq<int> {
    if ps == [] then [] else
      (if ps[0].account == a && ps[0].asset == s then [ps[0].amount] else []) + PostingFlow(ps[1..], a, s)
  }

  /** The same over a whole list of settlements. */
  function ActionFlow(acts: seq<Action>, a: Account, s: Asset): seq<int> {
    if acts == [] then [] else
      (if acts[0].Settle? then PostingFlow(acts[0].entry.req.postings, a, s) else []) +
      ActionFlow(acts[1..], a, s)
  }

  function ActionRequests(acts: seq<Action>): seq<Request> {
    if acts == [] then [] else
      (if acts[0].Settle? then [acts[0].entry.req] else []) + ActionRequests(acts[1..])
  }

  /** A balance that is its flow so far plus an opening no larger than it has to be. */
  predicate Covered(balance: int, flow: seq<int>, opening: int) {
    balance == SumSeq(flow) + opening && opening == MaxDeficit(flow)
  }

  /** The same of an account whose openings came to `before` when the flow began. */
  ghost predicate Reconciled(b: Books, flow: seq<int>, before: int, a: Account, s: Asset) {
    Covered(Held(b.balances, a, s), flow, OpeningSum(b.txs, a, s) - before)
  }

  lemma RowCovers(accounts: set<Account>, b: Index, p: Posting, a: Account, s: Asset, flow: seq<int>, opening: int)
    requires ApplyRow(accounts, b, p).Inserted? && !AllowsNegative(a)
    requires Covered(Held(b, a, s), flow, opening)
    ensures Covered(Held(ApplyRow(accounts, b, p).balances, a, s),
                    flow + (if p.account == a && p.asset == s then [p.amount] else []), opening)
  {
    if p.account == a && p.asset == s {
      MaxDeficitAppend(flow, p.amount);
    } else {
      assert flow + [] == flow;
    }
  }

  /** Rows that all go in need no opening. */
  lemma {:induction false} RowsCover(
      accounts: set<Account>, b: Index, ps: seq<Posting>, a: Account, s: Asset, flow: seq<int>, opening: int)
    requires ApplyRows(accounts, b, ps).Inserted? && !AllowsNegative(a)
    requires Covered(Held(b, a, s), flow, opening)
    ensures Covered(Held(ApplyRows(accounts, b, ps).balances, a, s), flow + PostingFlow(ps, a, s), opening)
    decreases |ps|
  {
    hide Covered, AllowsNegative;
    if ps == [] {
      assert flow + [] == flow;
    } else {
      RowCovers(accounts, b, ps[0], a, s, flow, opening);
      var first := if ps[0].account == a && ps[0].asset == s then [ps[0].amount] else [];
      RowsCover(accounts, ApplyRow(accounts, b, ps[0]).balances, ps[1..], a, s, flow + first, opening);
      assert flow + first + PostingFlow(ps[1..], a, s) == flow + PostingFlow(ps, a, s);
    }
  }

  lemma TwoPostingFlow(ps: seq<Posting>, a: Account, s: Asset)
    requires |ps| == 2
    ensures PostingFlow(ps, a, s) ==
            (if ps[0].account == a && ps[0].asset == s then [ps[0].amount] else []) +
            (if ps[1].account == a && ps[1].asset == s then [ps[1].amount] else [])
  {
    assert ps[1..][0] == ps[1] && ps[1..][1..] == [];
    assert PostingFlow(ps[1..], a, s) ==
           (if ps[1].account == a && ps[1].asset == s then [ps[1].amount] else []) + [];
  }

  lemma TwoLineSum(ps: seq<Posting>, a: Account, s: Asset)
    requires |ps| == 2
    ensures LineSum(ps, a, s) ==
            (if ps[0].account == a && ps[0].asset == s then ps[0].amount else 0) +
            (if ps[1].account == a && ps[1].asset == s then ps[1].amount else 0)
  {
    assert ps[..1][..0] == [] && ps[..1][0] == ps[0];
    assert LineSum(ps[..1], a, s) == (if ps[0].account == a && ps[0].asset == s then ps[0].amount else 0);
  }

  /** The opening of a short payer moves its balance and its opening total alike. */
  lemma OpeningMoves(b: Books, e: Entry, a: Account, s: Asset)
    requires ValidBooks(b) && Plain(e) && IsShort(b, e) && Free(b, SlotOf(e.req))
    requires RunOpen(b, e.req, e.opener.value, Unlimited).status == Fine && !AllowsNegative(a)
    ensures var c, o := Opened(b, e), e.opener.value;
            var more := if a == o.account && s == o.asset then Shortfall(b, o) else 0;
            && Held(c.balances, a, s) == Held(b.balances, a, s) + more
            && OpeningSum(c.txs, a, s) == OpeningSum(b.txs, a, s) + more
  {
    hide ValidBooks, Plain, RunOpen, Post, OpeningSum;
    var o := e.opener.value;
    var q := OpeningRequest(e.req, o, Shortfall(b, o));
    OpeningAppends(b, e);
    RowsMoveBalances(Opened(b, e).accounts, b.balances, q.postings);
    TwoLineSum(q.postings, a, s);
    AppendTx(b.txs, q, a, s);
  }

  /** Paying what one has just been found to hold: the debit is the new largest deficit. */
  lemma ShortDebitCovers(held: int, flow: seq<int>, opening: int, amount: int)
    requires Covered(held, flow, opening) && held < amount
    ensures Covered(0, flow + [-amount], opening + (amount - held))
  {
    MaxDeficitAppend(flow, -amount);
  }

  /** The rows of a payment whose payer holds exactly the amount: its debit is the new
      largest deficit, and whatever comes back to it afterwards only helps. */
  lemma ShortRowsCover(accounts: set<Account>, b: Index, ps: seq<Posting>, a: Account, s: Asset,
                       flow: seq<int>, held: int, opening: int)
    requires |ps| == 2 && ApplyRows(accounts, b, ps).Inserted? && !AllowsNegative(a)
    requires ps[0].account == a && ps[0].asset == s && Held(b, a, s) == -ps[0].amount
    requires Covered(held, flow, opening) && held < -ps[0].amount
    ensures Covered(Held(ApplyRows(accounts, b, ps).balances, a, s),
                    flow + PostingFlow(ps, a, s), opening + (-ps[0].amount - held))
  {
    var total := opening + (-ps[0].amount - held);
    TwoRows(accounts, b, ps);
    TwoPostingFlow(ps, a, s);
    ShortDebitCovers(held, flow, opening, -ps[0].amount);
    var first := ApplyRow(accounts, b, ps[0]).balances;
    assert Held(first, a, s) == 0;
    RowCovers(accounts, first, ps[1], a, s, flow + [ps[0].amount], total);
    var back := if ps[1].account == a && ps[1].asset == s then [ps[1].amount] else [];
    assert flow + [ps[0].amount] + back == flow + ([ps[0].amount] + back);
  }

  lemma DebitComesFirst(e: Entry)
    requires Plain(e) && e.opener.Some?
    ensures |e.req.postings| == 2 && e.req.kind != "opening"
    ensures var o := e.opener.value; e.req.postings[0] == Posting(o.account, o.asset, -o.amount)
  {
  }

  lemma ShortSettleReconciles(b: Books, e: Entry, flow: seq<int>, before: int, a: Account, s: Asset)
    requires ValidBooks(b) && Plain(e) && IsShort(b, e) && Free(b, SlotOf(e.req))
    requires RunSettle(b, e, Unlimited).status == Fine
    requires !AllowsNegative(a) && Reconciled(b, flow, before, a, s)
    ensures Reconciled(RunSettle(b, e, Unlimited).books, flow + PostingFlow(e.req.postings, a, s), before, a, s)
  {
    assert e.opener.Some?;
    hide *;
    DebitComesFirst(e);
    SettleAppends(b, e);
    OpeningAppends(b, e);
    OpeningMoves(b, e, a, s);
    AppendTx(Opened(b, e).txs, e.req, a, s);
    OpenedThenPaid(b, Opened(b, e), RunSettle(b, e, Unlimited).books, e, flow, before, a, s);
  }

  /** The opening and then the payment, as they move one account. */
  lemma OpenedThenPaid(b: Books, c: Books, d: Books, e: Entry, flow: seq<int>, before: int, a: Account, s: Asset)
    requires e.opener.Some? && |e.req.postings| == 2 && e.req.kind != "opening" && !AllowsNegative(a)
    requires var o := e.opener.value; e.req.postings[0] == Posting(o.account, o.asset, -o.amount) && Shortfall(b, o) > 0
    requires d.txs == c.txs + [e.req] && ApplyRows(c.accounts, c.balances, e.req.postings) == Inserted(d.balances)
    requires OpeningSum(d.txs, a, s) == OpeningSum(c.txs, a, s)
    requires var o := e.opener.value;
             var more := if a == o.account && s == o.asset then Shortfall(b, o) else 0;
             Held(c.balances, a, s) == Held(b.balances, a, s) + more && OpeningSum(c.txs, a, s) == OpeningSum(b.txs, a, s) + more
    requires Reconciled(b, flow, before, a, s)
    ensures Reconciled(d, flow + PostingFlow(e.req.postings, a, s), before, a, s)
  {
    hide OpeningSum, ApplyRows, Covered, PostingFlow, AllowsNegative, Held;
    var o, ps := e.opener.value, e.req.postings;
    if a == o.account && s == o.asset {
      ShortRowsCover(c.accounts, c.balances, ps, a, s, flow, Held(b.balances, a, s), OpeningSum(b.txs, a, s) - before);
    } else {
      RowsCover(c.accounts, c.balances, ps, a, s, flow, OpeningSum(c.txs, a, s) - before);
    }
  }

  lemma SettleReconciles(b: Books, e: Entry, flow: seq<int>, before: int, a: Account, s: Asset)
    requires ValidBooks(b) && Plain(e) && Free(b, SlotOf(e.req))
    requires RunSettle(b, e, Unlimited).status == Fine
    requires !AllowsNegative(a) && Reconciled(b, flow, before, a, s)
    ensures Reconciled(RunSettle(b, e, Unlimited).books, flow + PostingFlow(e.req.postings, a, s), before, a, s)
  {
    hide ValidBooks, Post, RunOpen, RunSettle, Free, OpeningSum, Shaped;
    if IsShort(b, e) {
      ShortSettleReconciles(b, e, flow, before, a, s);
    } else {
      SettleAppends(b, e);
      AppendTx(b.txs, e.req, a, s);
      RowsCover(b.accounts, b.balances, e.req.postings, a, s, flow, OpeningSum(b.txs, a, s) - before);
    }
  }

  // ----- a whole list -----

  /** Slots of the rest stay free when the first action is done. */
  lemma RestStaysNew(b: Books, acts: seq<Action>)
    requires ValidBooks(b) && acts != [] && Fresh(b, acts)
    requires RunAction(b, acts[0], Unlimited).status == Fine
    ensures var b' := RunAction(b, acts[0], Unlimited).books;
            ValidBooks(b') && Fresh(b', acts[1..])
  {
    RunActionKeeps(b, acts[0], Unlimited);
    var b' := RunAction(b, acts[0], Unlimited).books;
    hide ValidBooks, Plain, SlotOf, RunSettle, Post;
    var rest := acts[1..];
    assert forall i :: 0 <= i < |rest| ==> rest[i] == acts[i + 1];
    forall i | 0 <= i < |rest| && rest[i].Settle? ensures Free(b', SlotOf(rest[i].entry.req)) {
      assert Free(b, SlotOf(acts[i + 1].entry.req));
      if acts[0].Settle? {
        SettleLeavesOtherSlots(b, acts[0].entry, SlotOf(rest[i].entry.req));
      }
    }
  }

  /** The log, without its openings, grows by exactly the requests, in order. */
  lemma {:induction false} ListPays(b: Books, acts: seq<Action>)
    requires ValidBooks(b) && Fresh(b, acts)
    requires RunActions(b, acts, Unlimited).status == Fine
    ensures Payments(RunActions(b, acts, Unlimited).books.txs) == Payments(b.txs) + ActionRequests(acts)
    decreases |acts|
  {
    hide ValidBooks, RunAction, Payments, Fresh, Plain, Free, SlotOf;
    if acts == [] {
      assert Payments(b.txs) + [] == Payments(b.txs);
    } else {
      var r := RunAction(b, acts[0], Unlimited);
      RestStaysNew(b, acts);
      HeadIsFresh(b, acts);
      ActionPays(b, acts[0]);
      ActionPowerStays(b, acts[0]);
      ListPays(r.books, acts[1..]);
      var first := if acts[0].Settle? then [acts[0].entry.req] else [];
      var rest := ActionRequests(acts[1..]);
      assert ActionRequests(acts) == first + rest;
      assert Payments(b.txs) + first + rest == Payments(b.txs) + (first + rest);
    }
  }

  lemma ActionPays(b: Books, act: Action)
    requires ValidBooks(b) && (act.Settle? ==> Plain(act.entry) && Free(b, SlotOf(act.entry.req)))
    requires RunAction(b, act, Unlimited).status == Fine
    ensures Payments(RunAction(b, act, Unlimited).books.txs) ==
            Payments(b.txs) + (if act.Settle? then [act.entry.req] else [])
  {
    hide ValidBooks, Payments, RunSettle;
    if act.Settle? {
      SettlePays(b, act.entry);
    }
  }

  lemma ActionReconciles(b: Books, act: Action, flow: seq<int>, before: int, a: Account, s: Asset)
    requires ValidBooks(b) && (act.Settle? ==> Plain(act.entry) && Free(b, SlotOf(act.entry.req)))
    requires RunAction(b, act, Unlimited).status == Fine
    requires !AllowsNegative(a) && Reconciled(b, flow, before, a, s)
    ensures Reconciled(RunAction(b, act, Unlimited).books,
                       flow + (if act.Settle? then PostingFlow(act.entry.req.postings, a, s) else []), before, a, s)
  {
    hide ValidBooks, RunSettle, PostingFlow;
    if act.Settle? {
      SettleReconciles(b, act.entry, flow, before, a, s);
    } else {
      assert flow + [] == flow;
    }
  }

  /** Every account stays reconciled with its flow, all the way down the list. */
  lemma {:induction false} ListReconciles(b: Books, acts: seq<Action>, flow: seq<int>, before: int, a: Account, s: Asset)
    requires ValidBooks(b) && Fresh(b, acts)
    requires RunActions(b, acts, Unlimited).status == Fine
    requires !AllowsNegative(a) && Reconciled(b, flow, before, a, s)
    ensures Reconciled(RunActions(b, acts, Unlimited).books, flow + ActionFlow(acts, a, s), before, a, s)
    decreases |acts|
  {
    hide ValidBooks, RunAction, Reconciled, AllowsNegative, Fresh, Plain, Free, SlotOf, PostingFlow;
    if acts == [] {
      assert flow + [] == flow;
    } else {
      var r := RunAction(b, acts[0], Unlimited);
      RestStaysNew(b, acts);
      HeadIsFresh(b, acts);
      ActionReconciles(b, acts[0], flow, before, a, s);
      ActionPowerStays(b, acts[0]);
      var first := if acts[0].Settle? then PostingFlow(acts[0].entry.req.postings, a, s) else [];
      ListReconciles(r.books, acts[1..], flow + first, before, a, s);
      var rest := ActionFlow(acts[1..], a, s);
      assert ActionFlow(acts, a, s) == first + rest;
      assert flow + first + rest == flow + (first + rest);
    }
  }
}
