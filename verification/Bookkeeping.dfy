/**
 What a list of settlements leaves in the books when each of them is new: one
 transaction per settlement, in order, and between them exactly the opening
 balances that were needed.
 */
module Bookkeeping {
  import opened Common
  import opened Ledger
  import opened Ingestion
  import opened CrashSafety
  import opened Keys

  /** One org's place for one movement. */
  datatype Slot = Slot(org: OrgId, owner: seq<string>)

  function SlotOf(r: Request): Slot {
    Slot(r.org, Owner(r.key))
  }

  predicate Free(b: Books, s: Slot) {
    forall i :: 0 <= i < |b.txs| ==> SlotOf(b.txs[i]) != s
  }

  /** An entry of a movement, and its opening, share a slot. */
  ghost predicate Plain(e: Entry) {
    && Shaped(e)
    && e.req.kind != "opening"
    && forall short: int :: Owner(OpeningKey(e.req.key, short)) == Owner(e.req.key)
  }

  ghost predicate PlainActions(acts: seq<Action>) {
    forall i :: 0 <= i < |acts| ==> acts[i].Settle? ==> Plain(acts[i].entry)
  }

  predicate NewSlots(b: Books, acts: seq<Action>) {
    forall i :: 0 <= i < |acts| ==> acts[i].Settle? ==> Free(b, SlotOf(acts[i].entry.req))
  }

  predicate DistinctSlots(acts: seq<Action>) {
    forall i, j :: 0 <= i < j < |acts| ==> acts[i].Settle? && acts[j].Settle? ==>
      SlotOf(acts[i].entry.req) != SlotOf(acts[j].entry.req)
  }

  /** Every settlement of the list is new to the books and to the rest of the list. */
  ghost predicate Fresh(b: Books, acts: seq<Action>) {
    PlainActions(acts) && NewSlots(b, acts) && DistinctSlots(acts)
  }

  lemma HeadIsFresh(b: Books, acts: seq<Action>)
    requires Fresh(b, acts) && acts != []
    ensures acts[0].Settle? ==> Plain(acts[0].entry) && Free(b, SlotOf(acts[0].entry.req))
  {
  }

  // ----- what the log holds -----

  /** The log without its opening balances. */
  function Payments(txs: seq<Request>): seq<Request> {
    if txs == [] then [] else
      var init := Payments(txs[..|txs| - 1]);
      if txs[|txs| - 1].kind == "opening" then init else init + [txs[|txs| - 1]]
  }

  /** The total booked as opening balance of an account. */
  function OpeningSum(txs: seq<Request>, a: Account, s: Asset): int {
    if txs == [] then 0 else
      OpeningSum(txs[..|txs| - 1], a, s) +
      (if txs[|txs| - 1].kind == "opening" then LineSum(txs[|txs| - 1].postings, a, s) else 0)
  }

  lemma AppendTx(txs: seq<Request>, t: Request, a: Account, s: Asset)
    ensures Payments(txs + [t]) == Payments(txs) + (if t.kind == "opening" then [] else [t])
    ensures OpeningSum(txs + [t], a, s) ==
            OpeningSum(txs, a, s) + (if t.kind == "opening" then LineSum(t.postings, a, s) else 0)
  {
    assert (txs + [t])[..|txs + [t]| - 1] == txs;
  }

  // ----- deficits -----

  /** The largest amount by which outflow ever exceeded inflow, over all prefixes. */
  function MaxDeficit(flow: seq<int>): int {
    if flow == [] then 0 else Max(MaxDeficit(flow[..|flow| - 1]), -SumSeq(flow))
  }

  lemma MaxDeficitAppend(flow: seq<int>, x: int)
    ensures SumSeq(flow + [x]) == SumSeq(flow) + x
    ensures MaxDeficit(flow + [x]) == Max(MaxDeficit(flow), -(SumSeq(flow) + x))
  {
    assert (flow + [x])[..|flow + [x]| - 1] == flow;
  }

  /** It is the least opening that keeps every prefix out of the red. */
  lemma {:induction false} MaxDeficitIsLeast(flow: seq<int>, opening: int)
    ensures opening >= MaxDeficit(flow) <==>
            opening >= 0 && forall i :: 0 <= i <= |flow| ==> opening + SumSeq(flow[..i]) >= 0
  {
    if flow == [] {
      assert SumSeq(flow[..0]) == 0;
    } else {
      var init := flow[..|flow| - 1];
      MaxDeficitIsLeast(init, opening);
      forall i | 0 <= i < |flow| ensures init[..i] == flow[..i] {
      }
      assert flow[..|flow|] == flow;
      if opening >= MaxDeficit(flow) {
        forall i | 0 <= i <= |flow| ensures opening + SumSeq(flow[..i]) >= 0 {
          assert i < |flow| ==> init[..i] == flow[..i];
        }
      } else if opening >= 0 && forall i :: 0 <= i <= |flow| ==> opening + SumSeq(flow[..i]) >= 0 {
        forall i | 0 <= i <= |init| ensures opening + SumSeq(init[..i]) >= 0 {
          assert init[..i] == flow[..i];
        }
      }
    }
  }

  /** What is held to begin with is so much less to open with. */
  lemma {:induction false} MaxDeficitHolding(held: int, flow: seq<int>)
    requires held >= 0
    ensures SumSeq([held] + flow) == held + SumSeq(flow)
    ensures MaxDeficit([held] + flow) == Max(0, MaxDeficit(flow) - held)
  {
    if flow == [] {
      assert [held] + flow == [] + [held];
      MaxDeficitAppend([], held);
    } else {
      var init, x := flow[..|flow| - 1], flow[|flow| - 1];
      MaxDeficitHolding(held, init);
      assert flow == init + [x] && [held] + flow == [held] + init + [x];
      MaxDeficitAppend(init, x);
      MaxDeficitAppend([held] + init, x);
    }
  }

  // ----- one settlement -----

  predicate IsShort(b: Books, e: Entry) {
    Post(b, e.req).1 == Refused(InsufficientFunds) && e.opener.Some?
  }

  function Shortfall(b: Books, o: Opener): int {
    o.amount - Held(b.balances, o.account, o.asset)
  }

  lemma FreeMeansUnused(b: Books, r: Request)
    requires Free(b, SlotOf(r))
    ensures IndexOf(b.txs, r.org, r.key) == |b.txs|
  {
    var i := IndexOf(b.txs, r.org, r.key);
    assert i < |b.txs| ==> SlotOf(b.txs[i]) == SlotOf(r);
  }

  lemma UnusedPostAppends(b: Books, r: Request)
    requires IndexOf(b.txs, r.org, r.key) == |b.txs| && Post(b, r).1.Posted?
    ensures Post(b, r).0.txs == b.txs + [r] && Post(b, r).0.accounts == b.accounts
    ensures ApplyRows(b.accounts, b.balances, r.postings) == Inserted(Post(b, r).0.balances)
  {
  }

  /** The books after the opening a short settlement books first. */
  function Opened(b: Books, e: Entry): Books
    requires e.opener.Some?
  {
    RunOpen(b, e.req, e.opener.value, Unlimited).books
  }

  lemma OpeningAppends(b: Books, e: Entry)
    requires ValidBooks(b) && Plain(e) && IsShort(b, e) && Free(b, SlotOf(e.req))
    requires RunOpen(b, e.req, e.opener.value, Unlimited).status == Fine
    ensures var o := e.opener.value;
            var q := OpeningRequest(e.req, o, Shortfall(b, o));
            var c := Opened(b, e);
            && Shortfall(b, o) > 0
            && !AllowsNegative(o.account)
            && c.txs == b.txs + [q]
            && ValidBooks(c)
            && c.accounts == b.accounts + {External(e.req.org)}
            && ApplyRows(c.accounts, b.balances, q.postings) == Inserted(c.balances)
            && Post(c, e.req).1 != Refused(InsufficientFunds)
            && IndexOf(c.txs, e.req.org, e.req.key) == |c.txs|
  {
    hide ValidBooks, Valid, ColumnsOk, ApplyRows, Post;
    OnlyThePayerIsShort(b, e);
    var o := e.opener.value;
    var q := OpeningRequest(e.req, o, Shortfall(b, o));
    var mid := b.(accounts := b.accounts + {External(e.req.org)});
    RegisterKeepsValid(b, External(e.req.org));
    assert RunRegister(b, External(e.req.org), Unlimited).books == mid;
    assert SlotOf(q) == SlotOf(e.req);
    assert Free(mid, SlotOf(q));
    FreeMeansUnused(mid, q);
    UnusedPostAppends(mid, q);
    PostKeepsValid(mid, q);
    StillShort(b, e, mid.accounts);
    ShortNoMore(mid, e);
  }

  /** A finished settlement of a free slot: the payment is the last transaction, and
      before it, only when the payer was short, the opening. */
  lemma SettleAppends(b: Books, e: Entry)
    requires ValidBooks(b) && Plain(e) && Free(b, SlotOf(e.req))
    requires RunSettle(b, e, Unlimited).status == Fine
    ensures var b' := RunSettle(b, e, Unlimited).books;
            var mid := if IsShort(b, e) then Opened(b, e) else b;
            && b'.txs == mid.txs + [e.req]
            && b'.accounts == mid.accounts
            && ApplyRows(mid.accounts, mid.balances, e.req.postings) == Inserted(b'.balances)
            && (IsShort(b, e) ==> RunOpen(b, e.req, e.opener.value, Unlimited).status == Fine)
  {
    hide ValidBooks, Plain, Valid, ColumnsOk, Post, ApplyRows, RunOpen;
    if IsShort(b, e) {
      assert RunOpen(b, e.req, e.opener.value, Unlimited).status == Fine;
      OpeningAppends(b, e);
      UnusedPostAppends(Opened(b, e), e.req);
    } else {
      FreeMeansUnused(b, e.req);
      UnusedPostAppends(b, e.req);
    }
  }

  lemma SettleLeavesOtherSlots(b: Books, e: Entry, s: Slot)
    requires ValidBooks(b) && Plain(e) && Free(b, SlotOf(e.req))
    requires RunSettle(b, e, Unlimited).status == Fine
    requires Free(b, s) && s != SlotOf(e.req)
    ensures Free(RunSettle(b, e, Unlimited).books, s)
  {
    hide ValidBooks, RunSettle, RunOpen, Post;
    SettleAppends(b, e);
    if IsShort(b, e) {
      OpeningAppends(b, e);
      assert SlotOf(OpeningRequest(e.req, e.opener.value, Shortfall(b, e.opener.value))) == SlotOf(e.req);
    }
  }

  lemma SettlePays(b: Books, e: Entry)
    requires ValidBooks(b) && Plain(e) && Free(b, SlotOf(e.req))
    requires RunSettle(b, e, Unlimited).status == Fine
    ensures Payments(RunSettle(b, e, Unlimited).books.txs) == Payments(b.txs) + [e.req]
  {
    hide ValidBooks, RunSettle, RunOpen, Post, Shaped, Payments, OpeningSum;
    SettleAppends(b, e);
    var a, s := External(0), Asset("", "");
    if IsShort(b, e) {
      OpeningAppends(b, e);
      AppendTx(b.txs, OpeningRequest(e.req, e.opener.value, Shortfall(b, e.opener.value)), a, s);
      AppendTx(Opened(b, e).txs, e.req, a, s);
    } else {
      AppendTx(b.txs, e.req, a, s);
    }
  }
}
