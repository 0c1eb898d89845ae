/**
 Nothing wedges: a list of new, well-formed settlements is never refused for want of
 funds, for a reused key, for an imbalance or for crossing orgs. The one refusal left
 is a balance that does not fit an int64, and small enough volumes rule that out.
 */
module NoWedge {
  import opened Common
  import opened Ledger
  import opened Ingestion
  import opened CrashSafety
  import opened Bookkeeping
  import opened Openings

  lemma TwoLinesBalance(ps: seq<Posting>)
    requires |ps| == 2 && ps[0].asset == ps[1].asset && ps[1].amount == -ps[0].amount
    requires FitsInt64(ps[0].amount)
    ensures Balanced(ps)
  {
    var s, x := ps[0].asset, ps[0].amount;
    assert ps[..1][..0] == [] && ps[..1][0] == ps[0];
    assert AmountsOf(ps[..1], s) == [] + [x];
    var amounts := AmountsOf(ps, s);
    assert amounts == [x] + [-x];
    assert amounts[..0] == [] && amounts[..1] == [x] && amounts[..2] == amounts;
    assert [x][..0] == [];
    assert SumSeq([x]) == x;
    assert SumSeq(amounts) == 0;
    forall i | 0 <= i <= |amounts| ensures FitsInt64(SumSeq(amounts[..i])) {
    }
  }

  /** Everything Post checks before it looks at balances. */
  predicate Sendable(accounts: set<Account>, r: Request) {
    Valid(r) && ColumnsOk(r) && SingleOrg(r) && Registered(accounts, r.postings)
  }

  lemma {:induction false} RowsOutcome(accounts: set<Account>, b: Index, ps: seq<Posting>)
    requires Registered(accounts, ps)
    ensures ApplyRows(accounts, b, ps).Failed? ==>
              ApplyRows(accounts, b, ps).why in {InsufficientFunds, Overflow}
    decreases |ps|
  {
    if ps != [] {
      var first := ApplyRow(accounts, b, ps[0]);
      if first.Inserted? {
        RowsOutcome(accounts, first.balances, ps[1..]);
      }
    }
  }

  lemma FreshPostOutcome(b: Books, r: Request)
    requires Sendable(b.accounts, r) && IndexOf(b.txs, r.org, r.key) == |b.txs|
    ensures var o := Post(b, r).1; o.Posted? || o.why in {InsufficientFunds, Overflow}
    ensures Post(b, r).1.Posted? <==> ApplyRows(b.accounts, b.balances, r.postings).Inserted?
    ensures Post(b, r).1.Refused? ==> Failed(Post(b, r).1.why) == ApplyRows(b.accounts, b.balances, r.postings)
  {
    hide Valid, ColumnsOk;
    RowsOutcome(b.accounts, b.balances, r.postings);
  }

  lemma OpeningIsSendable(b: Books, e: Entry, short: int)
    requires Shaped(e) && e.opener.Some? && Sendable(b.accounts, e.req)
    requires FitsInt64(e.opener.value.amount) && 0 < short <= e.opener.value.amount
    ensures Sendable(b.accounts + {External(e.req.org)}, OpeningRequest(e.req, e.opener.value, short))
  {
    var q := OpeningRequest(e.req, e.opener.value, short);
    TwoLinesBalance(q.postings);
    assert e.req.postings[0].account in b.accounts;
    assert "opening" in KINDS;
  }

  /** A credited account and a counterparty: an opening is never short. */
  lemma OpeningIsNeverShort(accounts: set<Account>, b: Index, e: Entry, short: int)
    requires e.opener.Some? && short > 0 && Held(b, e.opener.value.account, e.opener.value.asset) >= 0
    ensures ApplyRows(accounts, b, OpeningRequest(e.req, e.opener.value, short).postings)
            != Failed(InsufficientFunds)
  {
    TwoRows(accounts, b, OpeningRequest(e.req, e.opener.value, short).postings);
  }

  /** The opening of a short settlement goes in unless a balance overflows. */
  lemma OpeningOutcome(b: Books, e: Entry)
    requires ValidBooks(b) && Plain(e) && Free(b, SlotOf(e.req)) && Sendable(b.accounts, e.req)
    requires IsShort(b, e) && FitsInt64(e.opener.value.amount)
    ensures var o := e.opener.value;
            var r := RunOpen(b, e.req, o, Unlimited);
            && r.power == Unlimited
            && (r.status == Fine || r.status == Stopped(PostRefused(Overflow)))
            && (r.status == Fine <==>
                ApplyRows(b.accounts + {External(e.req.org)}, b.balances,
                          OpeningRequest(e.req, o, Shortfall(b, o)).postings).Inserted?)
  {
    hide ValidBooks, ColumnsOk, Post, ApplyRows, ApplyRow, Balanced;
    OnlyThePayerIsShort(b, e);
    var o := e.opener.value;
    var short := Shortfall(b, o);
    var q := OpeningRequest(e.req, o, short);
    var mid := b.(accounts := b.accounts + {External(e.req.org)});
    PayerIsSolvent(b, e);
    OpeningIsSendable(b, e, short);
    assert SlotOf(q) == SlotOf(e.req);
    assert Free(mid, SlotOf(q));
    FreeMeansUnused(mid, q);
    FreshPostOutcome(mid, q);
    OpeningIsNeverShort(mid.accounts, mid.balances, e, short);
    assert RunRegister(b, External(e.req.org), Unlimited) == Run(mid, Unlimited, Fine);
    assert RunOpen(b, e.req, o, Unlimited) == RunPost(mid, q, Unlimited);
  }

  /** A short settlement, opening and retried payment together. */
  lemma ShortSettleOutcome(b: Books, e: Entry)
    requires ValidBooks(b) && Plain(e) && Free(b, SlotOf(e.req)) && Sendable(b.accounts, e.req)
    requires IsShort(b, e) && FitsInt64(e.opener.value.amount)
    ensures var r := RunSettle(b, e, Unlimited);
            r.status == Fine || r.status == Stopped(PostRefused(Overflow))
    ensures var o := e.opener.value;
            var q := OpeningRequest(e.req, o, Shortfall(b, o));
            var accounts := b.accounts + {External(e.req.org)};
            var opening := ApplyRows(accounts, b.balances, q.postings);
            RunSettle(b, e, Unlimited).status == Fine <==>
              opening.Inserted? && ApplyRows(accounts, opening.balances, e.req.postings).Inserted?
  {
    hide ValidBooks, Valid, ColumnsOk, Post, ApplyRows, Plain, Free, RunOpen;
    OpeningOutcome(b, e);
    if RunOpen(b, e.req, e.opener.value, Unlimited).status == Fine {
      OpeningAppends(b, e);
      var c := Opened(b, e);
      assert Registered(c.accounts, e.req.postings);
      FreshPostOutcome(c, e.req);
    }
  }

  lemma PayerIsSolvent(b: Books, e: Entry)
    requires ValidBooks(b) && Shaped(e) && IsShort(b, e)
    ensures Held(b.balances, e.opener.value.account, e.opener.value.asset) >= 0
  {
    var o := e.opener.value;
    OnlyThePayerIsShort(b, e);
    NotOverdrawn(b, o.account, o.asset);
  }

  function AmountOf(e: Entry): int
    requires Shaped(e)
  {
    if e.req.postings[0].amount < 0 then -e.req.postings[0].amount else e.req.postings[0].amount
  }

  lemma SettleOutcome(b: Books, e: Entry)
    requires ValidBooks(b) && Plain(e) && Free(b, SlotOf(e.req)) && Sendable(b.accounts, e.req)
    requires FitsInt64(AmountOf(e))
    ensures var r := RunSettle(b, e, Unlimited);
            r.status == Fine || r.status == Stopped(PostRefused(Overflow))
  {
    if IsShort(b, e) {
      ShortSettleOutcome(b, e);
    } else {
      FreeMeansUnused(b, e.req);
      FreshPostOutcome(b, e.req);
      if Post(b, e.req).1 == Refused(InsufficientFunds) {
        OnlyThePayerIsShort(b, e);
        assert false;
      }
    }
  }

  // ----- volumes -----

  ghost predicate Within(b: Index, v: int) {
    forall a: Account, s: Asset :: -v <= Held(b, a, s) <= v
  }

  lemma RowsFit(accounts: set<Account>, b: Index, e: Entry, v: int)
    requires Shaped(e) && Registered(accounts, e.req.postings) && Within(b, v)
    requires v + AmountOf(e) <= MAX_INT64
    ensures ApplyRows(accounts, b, e.req.postings) != Failed(Overflow)
    ensures ApplyRows(accounts, b, e.req.postings).Inserted? ==>
              Within(ApplyRows(accounts, b, e.req.postings).balances, v + AmountOf(e))
  {
    var ps := e.req.postings;
    TwoRows(accounts, b, ps);
    assert -v <= Held(b, ps[0].account, ps[0].asset) <= v;
    assert -v <= Held(b, ps[1].account, ps[1].asset) <= v;
    if ApplyRows(accounts, b, ps).Inserted? {
      var after := ApplyRows(accounts, b, ps).balances;
      RowsMoveBalances(accounts, b, ps);
      forall a: Account, s: Asset ensures -(v + AmountOf(e)) <= Held(after, a, s) <= v + AmountOf(e) {
        TwoLineSum(ps, a, s);
        assert Held(after, a, s) == Held(b, a, s) + LineSum(ps, a, s);
      }
    }
  }

  /** The two rows of an opening, and the balances they leave. */
  lemma OpeningFits(accounts: set<Account>, b: Index, e: Entry, v: int, short: int)
    requires Shaped(e) && e.opener.Some? && Registered(accounts, e.req.postings)
    requires External(e.req.org) in accounts && Within(b, v) && v + AmountOf(e) <= MAX_INT64
    requires !AllowsNegative(e.opener.value.account)
    requires 0 <= Held(b, e.opener.value.account, e.opener.value.asset) == e.opener.value.amount - short
    requires 0 < short
    ensures var o := e.opener.value;
            var opening := ApplyRows(accounts, b, OpeningRequest(e.req, o, short).postings);
            && opening.Inserted?
            && forall a: Account, s: Asset ::
                 Held(opening.balances, a, s) == Held(b, a, s)
                 + (if a == o.account && s == o.asset then short else 0)
                 - (if a == External(e.req.org) && s == o.asset then short else 0)
  {
    var o := e.opener.value;
    var q := OpeningRequest(e.req, o, short).postings;
    TwoRows(accounts, b, q);
    assert -v <= Held(b, External(e.req.org), o.asset) <= v;
    assert e.req.postings[0].account in accounts;
    var mid := ApplyRow(accounts, b, q[0]).balances;
    assert Held(mid, External(e.req.org), o.asset) == Held(b, External(e.req.org), o.asset);
  }

  /** The opening and the payment together fit, and move nothing by more than the amount. */
  lemma ShortRowsFit(accounts: set<Account>, b: Index, e: Entry, v: int, short: int)
    requires Shaped(e) && e.opener.Some? && Registered(accounts, e.req.postings)
    requires External(e.req.org) in accounts && Within(b, v) && v + AmountOf(e) <= MAX_INT64
    requires !AllowsNegative(e.opener.value.account)
    requires 0 <= Held(b, e.opener.value.account, e.opener.value.asset) == e.opener.value.amount - short
    requires 0 < short
    ensures var opening := ApplyRows(accounts, b, OpeningRequest(e.req, e.opener.value, short).postings);
            && opening.Inserted?
            && var payment := ApplyRows(accounts, opening.balances, e.req.postings);
               && payment != Failed(Overflow)
               && (payment.Inserted? ==> Within(payment.balances, v + AmountOf(e)))
  {
    hide ApplyRows, OpeningRequest;
    OpeningFits(accounts, b, e, v, short);
    var o, ps := e.opener.value, e.req.postings;
    var opening := ApplyRows(accounts, b, OpeningRequest(e.req, o, short).postings).balances;
    TwoRows(accounts, opening, ps);
    assert -v <= Held(b, ps[1].account, ps[1].asset) <= v;
    assert Held(opening, ps[0].account, ps[0].asset) == o.amount;
    assert -v - o.amount <= Held(opening, ps[1].account, ps[1].asset) <= v + o.amount;
    if ApplyRows(accounts, opening, ps).Inserted? {
      var after := ApplyRows(accounts, opening, ps).balances;
      RowsMoveBalances(accounts, opening, ps);
      forall a: Account, s: Asset ensures -(v + AmountOf(e)) <= Held(after, a, s) <= v + AmountOf(e) {
        TwoLineSum(ps, a, s);
        assert Held(after, a, s) == Held(opening, a, s) + LineSum(ps, a, s);
        assert -v <= Held(b, a, s) <= v;
      }
    }
  }

  lemma ShortSettleFits(b: Books, e: Entry, v: int)
    requires ValidBooks(b) && Plain(e) && Free(b, SlotOf(e.req)) && Sendable(b.accounts, e.req)
    requires Within(b.balances, v) && 0 <= v && v + AmountOf(e) <= MAX_INT64
    requires IsShort(b, e)
    ensures RunSettle(b, e, Unlimited).status == Fine
    ensures Within(RunSettle(b, e, Unlimited).books.balances, v + AmountOf(e))
  {
    hide ValidBooks, Valid, ColumnsOk, Post, ApplyRows, ApplyRow, RunSettle, RunOpen, Free, AllowsNegative;
    OnlyThePayerIsShort(b, e);
    PayerIsSolvent(b, e);
    PayerMayNotGoNegative(b, e);
    var o := e.opener.value;
    var accounts := b.accounts + {External(e.req.org)};
    assert Registered(accounts, e.req.postings);
    ShortRowsFit(accounts, b.balances, e, v, Shortfall(b, o));
    var opening := ApplyRows(accounts, b.balances, OpeningRequest(e.req, o, Shortfall(b, o)).postings);
    RowsOutcome(accounts, opening.balances, e.req.postings);
    RetryIsNeverShort(b, e);
    ShortSettleOutcome(b, e);
    SettleAppends(b, e);
    OpeningAppends(b, e);
  }

  /** Once the opening is in, the payment's rows do not fail for want of funds. */
  lemma RetryIsNeverShort(b: Books, e: Entry)
    requires ValidBooks(b) && Plain(e) && IsShort(b, e)
    ensures var accounts := b.accounts + {External(e.req.org)};
            var opening := ApplyRows(accounts, b.balances,
                                     OpeningRequest(e.req, e.opener.value, Shortfall(b, e.opener.value)).postings);
            opening.Inserted? ==>
              ApplyRows(accounts, opening.balances, e.req.postings) != Failed(InsufficientFunds)
  {
    var o, ps := e.opener.value, e.req.postings;
    OnlyThePayerIsShort(b, e);
    NotOverdrawn(b, ps[1].account, ps[1].asset);
    NotOverdrawn(b, o.account, o.asset);
    PayerMayNotGoNegative(b, e);
    hide ValidBooks, Valid, ColumnsOk, Post;
    var accounts := b.accounts + {External(e.req.org)};
    var q := OpeningRequest(e.req, o, Shortfall(b, o)).postings;
    TwoRows(accounts, b.balances, q);
    var opening := ApplyRows(accounts, b.balances, q);
    if opening.Inserted? {
      TwoRows(accounts, opening.balances, ps);
    }
  }

  lemma SettleFits(b: Books, e: Entry, v: int)
    requires ValidBooks(b) && Plain(e) && Free(b, SlotOf(e.req)) && Sendable(b.accounts, e.req)
    requires Within(b.balances, v) && 0 <= v && v + AmountOf(e) <= MAX_INT64
    ensures RunSettle(b, e, Unlimited).status == Fine
    ensures Within(RunSettle(b, e, Unlimited).books.balances, v + AmountOf(e))
  {
    hide ValidBooks, Valid, ColumnsOk, Post, ApplyRows, RunOpen, Free;
    if IsShort(b, e) {
      ShortSettleFits(b, e, v);
    } else {
      SettleOutcome(b, e);
      RowsFit(b.accounts, b.balances, e, v);
      FreeMeansUnused(b, e.req);
      FreshPostOutcome(b, e.req);
      SettleAppends(b, e);
    }
  }

  lemma PayerMayNotGoNegative(b: Books, e: Entry)
    requires ValidBooks(b) && Shaped(e) && IsShort(b, e)
    ensures !AllowsNegative(e.opener.value.account)
  {
    OnlyThePayerIsShort(b, e);
  }

  // ----- a whole list -----

  /** Every action finds its accounts registered and its request in order. */
  predicate Prepared(accounts: set<Account>, acts: seq<Action>)
    decreases |acts|
  {
    acts == [] ||
    match acts[0]
    case Register(a) => a.org != 0 && Prepared(accounts + {a}, acts[1..])
    case Settle(e) =>
      Shaped(e) && Sendable(accounts, e.req) && FitsInt64(AmountOf(e)) && Prepared(accounts, acts[1..])
    case Halt(_) => false
  }

  /** Everything a list moves, in stroops of whatever asset. */
  function Volume(acts: seq<Action>): (v: int)
    ensures v >= 0
  {
    if acts == [] then 0 else
      (if acts[0].Settle? && Shaped(acts[0].entry) then AmountOf(acts[0].entry) else 0) + Volume(acts[1..])
  }

  lemma {:induction false} PreparedGrows(accounts: set<Account>, more: set<Account>, acts: seq<Action>)
    requires Prepared(accounts, acts) && accounts <= more
    ensures Prepared(more, acts)
    decreases |acts|
  {
    hide Valid, ColumnsOk, Shaped;
    if acts != [] {
      if acts[0].Register? {
        PreparedGrows(accounts + {acts[0].account}, more + {acts[0].account}, acts[1..]);
      } else {
        PreparedGrows(accounts, more, acts[1..]);
      }
    }
  }

  /** What is prepared stays prepared behind the first action. */
  lemma RestStaysPrepared(b: Books, acts: seq<Action>)
    requires ValidBooks(b) && acts != [] && Prepared(b.accounts, acts)
    requires RunAction(b, acts[0], Unlimited).status == Fine
    ensures Prepared(RunAction(b, acts[0], Unlimited).books.accounts, acts[1..])
  {
    RunActionKeeps(b, acts[0], Unlimited);
    var b' := RunAction(b, acts[0], Unlimited).books;
    if acts[0].Register? {
      PreparedGrows(b.accounts + {acts[0].account}, b'.accounts, acts[1..]);
    } else {
      hide RunAction, ValidBooks;
      PreparedGrows(b.accounts, b'.accounts, acts[1..]);
    }
  }

  lemma ActionOutcome(b: Books, acts: seq<Action>)
    requires ValidBooks(b) && acts != [] && Prepared(b.accounts, acts) && Fresh(b, acts)
    ensures var r := RunAction(b, acts[0], Unlimited);
            r.status == Fine || r.status == Stopped(PostRefused(Overflow))
  {
    hide ValidBooks, Plain, Free, Valid, ColumnsOk, RunSettle;
    HeadIsFresh(b, acts);
    if acts[0].Settle? {
      SettleOutcome(b, acts[0].entry);
    }
  }

  lemma {:induction false} ListOutcome(b: Books, acts: seq<Action>)
    requires ValidBooks(b) && Prepared(b.accounts, acts) && Fresh(b, acts)
    ensures var r := RunActions(b, acts, Unlimited);
            r.status == Fine || r.status == Stopped(PostRefused(Overflow))
    decreases |acts|
  {
    hide ValidBooks, Prepared, Fresh, RunAction;
    if acts != [] {
      ActionOutcome(b, acts);
      ActionPowerStays(b, acts[0]);
      var r := RunAction(b, acts[0], Unlimited);
      if r.status == Fine {
        RestStaysNew(b, acts);
        RestStaysPrepared(b, acts);
        ListOutcome(r.books, acts[1..]);
      }
    }
  }

  lemma ActionFits(b: Books, acts: seq<Action>, v: int)
    requires ValidBooks(b) && acts != [] && Prepared(b.accounts, acts) && Fresh(b, acts)
    requires 0 <= v && Within(b.balances, v) && v + Volume(acts) <= MAX_INT64
    ensures var r := RunAction(b, acts[0], Unlimited);
            && r.status == Fine
            && Within(r.books.balances, v + (Volume(acts) - Volume(acts[1..])))
  {
    hide ValidBooks, Plain, Free, Valid, ColumnsOk, RunSettle, Shaped;
    HeadIsFresh(b, acts);
    if acts[0].Settle? {
      SettleFits(b, acts[0].entry, v);
    }
  }

  lemma {:induction false} ListFits(b: Books, acts: seq<Action>, v: int)
    requires ValidBooks(b) && Prepared(b.accounts, acts) && Fresh(b, acts)
    requires 0 <= v && Within(b.balances, v) && v + Volume(acts) <= MAX_INT64
    ensures RunActions(b, acts, Unlimited).status == Fine
    decreases |acts|
  {
    hide ValidBooks, Prepared, Fresh, RunAction, Within, Shaped;
    if acts != [] {
      ActionFits(b, acts, v);
      ActionPowerStays(b, acts[0]);
      RestStaysNew(b, acts);
      RestStaysPrepared(b, acts);
      ListFits(RunAction(b, acts[0], Unlimited).books, acts[1..], v + (Volume(acts) - Volume(acts[1..])));
    }
  }
}
