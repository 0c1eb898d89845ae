/**
 Why ingestion promises what it does for one stream at a time: what happens to an opening
 whose key is already taken, exactly when that is, and two streams that bring it about.
 */
module TwoStreams {
  import opened Common
  import opened Ledger
  import opened Ingestion
  import opened CrashSafety
  import opened IngestionRuns
  import opened Keys
  import opened Bookkeeping
  import opened Openings
  import opened NoWedge
  import opened StreamBooks

  // ----- an opening whose key is taken -----

  lemma RecordedPosts(b: Books, r: Request)
    requires Recorded(b, r)
    ensures Post(b, r).0 == b && Post(b, r).1.Posted?
  {
  }

  lemma TakenKeyPosts(b: Books, r: Request)
    requires Valid(r) && ColumnsOk(r) && IndexOf(b.txs, r.org, r.key) < |b.txs|
    ensures Post(b, r).0 == b && (Post(b, r).1.Posted? || Post(b, r).1 == Refused(KeyReused))
  {
  }

  /** A short payment is refused for funds or for a reused key, attempt after attempt, exactly
      when the key of its opening is already taken. */
  lemma WedgedIffOpeningTaken(b: Books, e: Entry)
    requires ValidBooks(b) && Plain(e) && Sendable(b.accounts, e.req) && External(e.req.org) in b.accounts
    requires IsShort(b, e) && FitsInt64(e.opener.value.amount)
    ensures var q := OpeningRequest(e.req, e.opener.value, Shortfall(b, e.opener.value));
            IndexOf(b.txs, q.org, q.key) < |b.txs| <==>
              RunSettle(b, e, Unlimited).status in {Stopped(PostRefused(InsufficientFunds)), Stopped(PostRefused(KeyReused))}
  {
    hide ValidBooks, Post, ColumnsOk, Balanced, ApplyRows, ApplyRow;
    OnlyThePayerIsShort(b, e);
    PayerIsSolvent(b, e);
    var o := e.opener.value;
    var short := Shortfall(b, o);
    var q := OpeningRequest(e.req, o, short);
    OpeningIsSendable(b, e, short);
    assert b.accounts + {External(e.req.org)} == b.accounts;
    assert b.(accounts := b.accounts + {External(e.req.org)}) == b;
    assert RunOpen(b, e.req, o, Unlimited) == RunPost(b, q, Unlimited);
    if IndexOf(b.txs, q.org, q.key) < |b.txs| {
      TakenKeyPosts(b, q);
    } else {
      FreshPostOutcome(b, q);
      OpeningIsNeverShort(b.accounts, b.balances, e, short);
      if Post(b, q).1.Posted? {
        UnusedPostAppends(b, q);
        ShortNoMore(b, e);
        FreshPostOutcome(Post(b, q).0, e.req);
      }
    }
  }

  // ----- two streams -----

  /** A payment that can only just be made: new, in order, and not too large. */
  ghost predicate Payable(b: Books, e: Entry, v: int) {
    && Plain(e) && Free(b, SlotOf(e.req)) && Sendable(b.accounts, e.req) && e.opener.Some?
    && External(e.req.org) in b.accounts
    && 0 <= v && Within(b.balances, v) && v + AmountOf(e) <= MAX_INT64
  }

  /** Dying right after the opening leaves the opening and nothing else. */
  lemma DiesAfterOpening(b: Books, e: Entry, v: int)
    requires ValidBooks(b) && Payable(b, e, v) && IsShort(b, e)
    ensures RunSettle(b, e, Left(1)) == Run(Opened(b, e), Left(0), Crashed)
    ensures RunOpen(b, e.req, e.opener.value, Unlimited).status == Fine
  {
    hide ValidBooks, Plain, Free, Sendable, Shaped, Valid, ColumnsOk, Post, ApplyRows, Within, RunOpen, AmountOf;
    ShortSettleFits(b, e, v);
    SettleAppends(b, e);
    OpeningAppends(b, e);
    OpensWithOneCommit(b, e);
    LastCommitIsLost(Opened(b, e), e.req);
  }

  lemma OpensWithOneCommit(b: Books, e: Entry)
    requires e.opener.Some? && External(e.req.org) in b.accounts
    requires RunOpen(b, e.req, e.opener.value, Unlimited).status == Fine && Opened(b, e) != b
    ensures RunOpen(b, e.req, e.opener.value, Left(1)) == Run(Opened(b, e), Left(0), Fine)
  {
    hide Post;
    assert b.(accounts := b.accounts + {External(e.req.org)}) == b;
  }

  lemma LastCommitIsLost(c: Books, r: Request)
    requires RunPost(c, r, Unlimited).status == Fine && RunPost(c, r, Unlimited).books != c
    ensures RunPost(c, r, Left(0)) == Run(c, Left(0), Crashed)
  {
    hide Post;
  }

  /** The same account pays, under another key, exactly what the opening brought. */
  ghost predicate SpendsTheOpening(b: Books, e: Entry, f: Entry) {
    && e.opener.Some? && f.opener.Some? && Shaped(f) && SlotOf(f.req) != SlotOf(e.req)
    && f.opener.value == Opener(e.opener.value.account, e.opener.value.asset, Shortfall(b, e.opener.value))
    && f.req.postings[1].account != e.opener.value.account
  }

  lemma OpenedHolds(b: Books, e: Entry)
    requires ValidBooks(b) && Plain(e) && IsShort(b, e) && Free(b, SlotOf(e.req))
    requires RunOpen(b, e.req, e.opener.value, Unlimited).status == Fine
    ensures var o, c := e.opener.value, Opened(b, e);
            && Held(c.balances, o.account, o.asset) == o.amount
            && forall a: Account, s: Asset ::
                 Held(c.balances, a, s) == Held(b.balances, a, s)
                 + (if a == o.account && s == o.asset then Shortfall(b, o) else 0)
                 - (if a == External(e.req.org) && s == o.asset then Shortfall(b, o) else 0)
  {
    OpeningAppends(b, e);
    hide ValidBooks, Plain, Post, RunOpen, ApplyRows;
    var o, c := e.opener.value, Opened(b, e);
    var q := OpeningRequest(e.req, o, Shortfall(b, o));
    RowsMoveBalances(c.accounts, b.balances, q.postings);
    forall a: Account, s: Asset ensures
      Held(c.balances, a, s) == Held(b.balances, a, s)
        + (if a == o.account && s == o.asset then Shortfall(b, o) else 0)
        - (if a == External(e.req.org) && s == o.asset then Shortfall(b, o) else 0)
    {
      TwoLineSum(q.postings, a, s);
    }
  }

  /** The other stream's payment goes in, and the payer is back where it was. */
  lemma SpendGoesIn(b: Books, e: Entry, f: Entry, v: int)
    requires ValidBooks(b) && Payable(b, e, v) && Payable(b, f, v) && IsShort(b, e) && SpendsTheOpening(b, e, f)
    requires v + AmountOf(e) + AmountOf(f) <= MAX_INT64
    requires RunOpen(b, e.req, e.opener.value, Unlimited).status == Fine
    ensures var o, c := e.opener.value, Opened(b, e);
            var r := RunSettle(c, f, Unlimited);
            && r.status == Fine && r.books.txs == c.txs + [f.req] && r.books.accounts == c.accounts
            && Held(r.books.balances, o.account, o.asset) == Held(b.balances, o.account, o.asset)
  {
    hide Plain, Free, Post, RunOpen, Opened, Valid, ColumnsOk, ApplyRows, ValidBooks, Shaped, AmountOf, Within, Payable,
      SpendsTheOpening, SlotOf, RunSettle;
    PayableParts(b, e, v);
    PayableParts(b, f, v);
    ShortParts(b, e, f);
    SpendParts(b, e, f, v);
    var o, c, ps := e.opener.value, Opened(b, e), f.req.postings;
    OpeningAppends(b, e);
    OpenedHolds(b, e);
    PayerIsSolvent(b, e);
    StillFree(b, e, f);
    NotOverdrawn(c, ps[1].account, ps[1].asset);
    TwoRowsGoIn(c.accounts, c.balances, ps);
    FreshPostOutcome(c, f.req);
    UnusedPostAppends(c, f.req);
    PostedSettles(c, f);
  }

  lemma SpendParts(b: Books, e: Entry, f: Entry, v: int)
    requires Payable(b, e, v) && Payable(b, f, v) && SpendsTheOpening(b, e, f)
    requires v + AmountOf(e) + AmountOf(f) <= MAX_INT64
    ensures var o, ps := e.opener.value, f.req.postings;
            && |ps| == 2 && ps[0] == Posting(o.account, o.asset, -Shortfall(b, o)) && ps[1].amount == Shortfall(b, o)
            && ps[1].account != o.account && Sendable(b.accounts, f.req)
            && ps[0].account in b.accounts && ps[1].account in b.accounts
            && -v <= Held(b.balances, ps[1].account, ps[1].asset) <= v && v + o.amount + Shortfall(b, o) <= MAX_INT64
  {
    hide Valid, ColumnsOk;
  }

  lemma PostedSettles(c: Books, f: Entry)
    requires Post(c, f.req).1.Posted?
    ensures RunSettle(c, f, Unlimited) == Run(Post(c, f.req).0, Unlimited, Fine)
  {
    hide Post;
  }

  /** A debit that is covered and a credit that fits both go in. */
  lemma TwoRowsGoIn(accounts: set<Account>, b: Index, ps: seq<Posting>)
    requires |ps| == 2 && ps[0].account in accounts && ps[1].account in accounts && ps[0].account != ps[1].account
    requires ps[0].amount < 0 < ps[1].amount
    requires 0 <= Held(b, ps[0].account, ps[0].asset) + ps[0].amount <= MAX_INT64
    requires Held(b, ps[1].account, ps[1].asset) >= 0 || AllowsNegative(ps[1].account)
    requires FitsInt64(Held(b, ps[1].account, ps[1].asset) + ps[1].amount)
    ensures var r := ApplyRows(accounts, b, ps);
            && r.Inserted?
            && Held(r.balances, ps[0].account, ps[0].asset) == Held(b, ps[0].account, ps[0].asset) + ps[0].amount
  {
    TwoRows(accounts, b, ps);
  }

  lemma StillFree(b: Books, e: Entry, f: Entry)
    requires ValidBooks(b) && Plain(e) && IsShort(b, e) && Free(b, SlotOf(e.req)) && Free(b, SlotOf(f.req))
    requires SlotOf(f.req) != SlotOf(e.req) && RunOpen(b, e.req, e.opener.value, Unlimited).status == Fine
    ensures IndexOf(Opened(b, e).txs, f.req.org, f.req.key) == |Opened(b, e).txs|
  {
    OpeningAppends(b, e);
    hide ValidBooks, Post, RunOpen, Shaped;
    var q := OpeningRequest(e.req, e.opener.value, Shortfall(b, e.opener.value));
    assert SlotOf(q) == SlotOf(e.req);
    FreeMeansUnused(Opened(b, e), f.req);
  }

  /**
   One stream books an opening and dies; another stream spends, from the same account, what
   the opening brought; the first comes back to the same shortfall, whose opening it takes
   for a replay, and its payment is refused, at this and every later attempt.
   */
  lemma SpentOpeningWedges(b: Books, e: Entry, f: Entry, v: int, p: Power)
    requires ValidBooks(b) && Payable(b, e, v) && Payable(b, f, v) && IsShort(b, e) && SpendsTheOpening(b, e, f)
    requires v + AmountOf(e) + AmountOf(f) <= MAX_INT64
    ensures var died := RunSettle(b, e, Left(1));
            var spent := RunSettle(died.books, f, Unlimited);
            && died.status == Crashed && spent.status == Fine
            && RunSettle(spent.books, e, p) == Run(spent.books, p, Stopped(PostRefused(InsufficientFunds)))
  {
    assert e.opener.value.account.org == e.req.org;
    hide ValidBooks, Opened, Recorded, Post, RunSettle, Payable, SpendsTheOpening, IsShort, AmountOf, Shortfall;
    DiesAfterOpening(b, e, v);
    SpendGoesIn(b, e, f, v);
    ShortOnceMore(b, e, f, v);
    ReplayedOpening(RunSettle(Opened(b, e), f, Unlimited).books, e, p);
  }

  /** After the other payment: short of the same amount, with the opening of it on record. */
  lemma ShortOnceMore(b: Books, e: Entry, f: Entry, v: int)
    requires ValidBooks(b) && Payable(b, e, v) && IsShort(b, e) && SpendsTheOpening(b, e, f)
    requires RunOpen(b, e.req, e.opener.value, Unlimited).status == Fine
    requires var o, c := e.opener.value, Opened(b, e);
             var d := RunSettle(c, f, Unlimited).books;
             && d.txs == c.txs + [f.req] && d.accounts == c.accounts
             && Held(d.balances, o.account, o.asset) == Held(b.balances, o.account, o.asset)
    ensures var d := RunSettle(Opened(b, e), f, Unlimited).books;
            && External(e.req.org) in d.accounts && e.req.org != 0
            && Shortfall(d, e.opener.value) > 0 && Post(d, e.req) == (d, Refused(InsufficientFunds))
            && Recorded(d, OpeningRequest(e.req, e.opener.value, Shortfall(d, e.opener.value)))
  {
    hide ValidBooks, Plain, Free, RunOpen, Opened, Recorded, Valid, ColumnsOk, Post, Shaped, RunSettle, ApplyRows, AmountOf,
      Payable, SpendsTheOpening, IsShort, SlotOf, ApplyRow, Shortfall;
    PayableParts(b, e, v);
    ShortParts(b, e, f);
    var o, c := e.opener.value, Opened(b, e);
    OpeningAppends(b, e);
    OnlyThePayerIsShort(b, e);
    PayerIsSolvent(b, e);
    OpeningIsRecorded(b, e);
    var d := RunSettle(c, f, Unlimited).books;
    RecordedIsKept(c, d, OpeningRequest(e.req, o, Shortfall(b, o)), f.req);
    StillUnpaid(c, d, e.req, f.req);
    SameShortfall(b, d, o);
    ShortAgain(d, e.req);
    OrgIsSet(e.req);
  }

  lemma PayableParts(b: Books, e: Entry, v: int)
    requires Payable(b, e, v)
    ensures e.opener.Some? && Plain(e) && Shaped(e) && Free(b, SlotOf(e.req)) && External(e.req.org) in b.accounts
    ensures var o := e.opener.value; |e.req.postings| == 2 && e.req.postings[0] == Posting(o.account, o.asset, -o.amount)
    ensures 0 < e.opener.value.amount <= MAX_INT64
  {
  }

  lemma ShortParts(b: Books, e: Entry, f: Entry)
    requires IsShort(b, e) && SpendsTheOpening(b, e, f)
    ensures e.opener.Some? && SlotOf(f.req) != SlotOf(e.req) && Post(b, e.req).1 == Refused(InsufficientFunds)
  {
  }

  lemma SameShortfall(b: Books, d: Books, o: Opener)
    requires Held(d.balances, o.account, o.asset) == Held(b.balances, o.account, o.asset)
    ensures Shortfall(d, o) == Shortfall(b, o) == o.amount - Held(d.balances, o.account, o.asset)
  {
  }

  lemma OrgIsSet(r: Request)
    requires Valid(r)
    ensures r.org != 0
  {
  }

  lemma StillUnpaid(c: Books, d: Books, r: Request, q: Request)
    requires IndexOf(c.txs, r.org, r.key) == |c.txs| && d.txs == c.txs + [q] && SlotOf(q) != SlotOf(r)
    ensures IndexOf(d.txs, r.org, r.key) == |d.txs|
  {
    IndexAppend(c.txs, q, r.org, r.key);
  }

  lemma ShortAgain(d: Books, r: Request)
    requires Valid(r) && ColumnsOk(r) && IndexOf(d.txs, r.org, r.key) == |d.txs| && |r.postings| == 2
    requires r.postings[0].account in d.accounts && !AllowsNegative(r.postings[0].account)
    requires MIN_INT64 <= Held(d.balances, r.postings[0].account, r.postings[0].asset) + r.postings[0].amount < 0
    ensures Post(d, r) == (d, Refused(InsufficientFunds))
  {
    hide Valid, ColumnsOk;
    TwoRows(d.accounts, d.balances, r.postings);
  }

  lemma OpeningIsRecorded(b: Books, e: Entry)
    requires ValidBooks(b) && Plain(e) && IsShort(b, e) && Free(b, SlotOf(e.req)) && External(e.req.org) in b.accounts
    requires RunOpen(b, e.req, e.opener.value, Unlimited).status == Fine
    ensures Recorded(Opened(b, e), OpeningRequest(e.req, e.opener.value, Shortfall(b, e.opener.value)))
  {
    assert Shaped(e);
    hide ValidBooks, Plain, Free, Post, Recorded, Valid, ColumnsOk, Shaped, ApplyRow;
    OnlyThePayerIsShort(b, e);
    OpeningIsPosted(b, e);
    var o := e.opener.value;
    PostedIsRecorded(b, OpeningRequest(e.req, o, Shortfall(b, o)), Unlimited);
  }

  lemma OpeningIsPosted(b: Books, e: Entry)
    requires e.opener.Some? && Shaped(e) && External(e.req.org) in b.accounts && Shortfall(b, e.opener.value) > 0
    requires RunOpen(b, e.req, e.opener.value, Unlimited).status == Fine
    ensures RunOpen(b, e.req, e.opener.value, Unlimited)
         == RunPost(b, OpeningRequest(e.req, e.opener.value, Shortfall(b, e.opener.value)), Unlimited)
  {
    hide Post;
    assert b.accounts + {External(e.req.org)} == b.accounts;
  }

  lemma RecordedIsKept(c: Books, d: Books, q: Request, r: Request)
    requires Recorded(c, q) && d.txs == c.txs + [r]
    ensures Recorded(d, q)
  {
    IndexAppend(c.txs, r, q.org, q.key);
  }

  lemma ReplayedOpening(d: Books, e: Entry, p: Power)
    requires e.opener.Some? && e.opener.value.account.org == e.req.org && External(e.req.org) in d.accounts && e.req.org != 0
    requires Post(d, e.req) == (d, Refused(InsufficientFunds)) && Shortfall(d, e.opener.value) > 0
    requires Recorded(d, OpeningRequest(e.req, e.opener.value, Shortfall(d, e.opener.value)))
    ensures RunSettle(d, e, p) == Run(d, p, Stopped(PostRefused(InsufficientFunds)))
  {
    hide Post, Recorded, Valid, ColumnsOk;
    var o := e.opener.value;
    RecordedPosts(d, OpeningRequest(e.req, o, Shortfall(d, o)));
    assert d.accounts + {External(e.req.org)} == d.accounts;
    assert RunRegister(d, External(e.req.org), p) == Run(d, p, Fine);
    assert RunOpen(d, e.req, o, p) == Run(d, p, Fine);
  }

  /** A watched account pays somebody who is not watched. */
  predicate PaysOut(t: Tracking, rec: Record) {
    && |rec.movements| == 1 && rec.closed == "" && ReadableRecord(t, rec)
    && rec.movements[0].from in t && rec.movements[0].to !in t
  }

  function Outgoing(t: Tracking, rec: Record): Entry
    requires PaysOut(t, rec)
  {
    var m := rec.movements[0];
    WithdrawalEntry(rec, 0, t[m.from], ResolveAsset(m).value, m.amount)
  }

  /** Consuming it is settling one entry, where its counterparty is registered already. */
  lemma PaysOutIsOneSettlement(d: Durable, rec: Record, p: Power)
    requires PaysOut(d.tracked, rec) && TracksRegistered(d.tracked, d.books.accounts)
    requires External(d.tracked[rec.movements[0].from].org) in d.books.accounts
    ensures var r := RunSettle(d.books, Outgoing(d.tracked, rec), p);
            && (r.status != Fine ==> Consume(d, rec, p) == Progress(d.(books := r.books), r.power, r.status))
            && (r.status == Fine && p == Unlimited ==>
                  Consume(d, rec, p).status == Fine && Consume(d, rec, p).state.books == r.books)
  {
    var t, m, e := d.tracked, rec.movements[0], Outgoing(d.tracked, rec);
    var counterparty := External(t[m.from].org);
    assert MovementActions(t, rec, 0) == [Register(counterparty), Settle(e)];
    assert WorkUpTo(t, rec, 0) == [];
    assert Work(t, rec) == [Register(counterparty), Settle(e)];
    var acts := [Register(counterparty), Settle(e)];
    assert acts[1..] == [Settle(e)] && [Settle(e)][1..] == [];
    assert d.books.accounts + {counterparty} == d.books.accounts;
    assert RunRegister(d.books, counterparty, p) == Run(d.books, p, Fine);
    hide RunSettle, MovementActions, WorkUpTo, Outgoing;
    var r := RunSettle(d.books, e, p);
    assert RunActions(r.books, [], r.power) == Run(r.books, r.power, Fine);
    assert RunActions(d.books, [Settle(e)], p) == r;
    assert RunActions(d.books, acts, p) == r;
    ActionPowerStays(d.books, Settle(e));
  }

  lemma OutgoingIsPayable(b: Books, t: Tracking, rec: Record)
    requires ValidBooks(b) && b.txs == [] && SoundTracking(t) && TracksRegistered(t, b.accounts) && PaysOut(t, rec)
    requires External(t[rec.movements[0].from].org) in b.accounts
    ensures Payable(b, Outgoing(t, rec), 0) && IsShort(b, Outgoing(t, rec))
    ensures Shortfall(b, Outgoing(t, rec).opener.value) == rec.movements[0].amount == AmountOf(Outgoing(t, rec))
  {
    var m, e := rec.movements[0], Outgoing(t, rec);
    var s := ResolveAsset(m).value;
    MovementIsPlain(t, rec, 0);
    assert MovementActions(t, rec, 0)[1] == Settle(e);
    WithdrawalIsSendable(b.accounts, rec, 0, t[m.from], s, m.amount);
    forall a: Account, z: Asset ensures Held(b.balances, a, z) == 0 {
      assert Held(b.balances, a, z) == EntrySum(b.txs, a, z);
    }
    hide ValidBooks, MovementActions, Valid, ColumnsOk, Post;
    ShortAgain(b, e.req);
  }

  lemma FirstMovementThere(t: Tracking, rec: Record)
    requires PaysOut(t, rec)
    ensures |rec.movements| == 1 && rec.movements[0].from in t
  {
  }

  lemma OneSpendsTheOther(b: Books, t: Tracking, one: Record, two: Record)
    requires ValidBooks(b) && b.txs == [] && SoundTracking(t) && TracksRegistered(t, b.accounts)
    requires PaysOut(t, one) && PaysOut(t, two) && one.id != two.id
    requires one.movements[0].from == two.movements[0].from && External(t[one.movements[0].from].org) in b.accounts
    requires ResolveAsset(one.movements[0]) == ResolveAsset(two.movements[0])
    requires one.movements[0].amount == two.movements[0].amount && 2 * one.movements[0].amount <= MAX_INT64
    ensures SpendsTheOpening(b, Outgoing(t, one), Outgoing(t, two))
  {
    hide ValidBooks, IsShort, RunSettle;
    OwnersDiffer(one, 0, two, 0);
    assert SlotOf(Outgoing(t, two).req) != SlotOf(Outgoing(t, one).req);
    OutgoingIsPayable(b, t, one);
    OutgoingIsPayable(b, t, two);
  }

  /**
   Two streams over the same books, for every two payments of the same amount out of one
   watched account that nothing was seen to arrive in: the first stream dies between opening
   and payment, the second takes its record, and the first never gets past its own.
   */
  lemma TwoStreamsWedge(b: Books, t: Tracking, one: Record, two: Record, i: nat, j: nat, p: Power)
    requires ValidBooks(b) && b.txs == [] && SoundTracking(t) && TracksRegistered(t, b.accounts)
    requires PaysOut(t, one) && PaysOut(t, two) && one.id != two.id
    requires one.movements[0].from == two.movements[0].from && External(t[one.movements[0].from].org) in b.accounts
    requires ResolveAsset(one.movements[0]) == ResolveAsset(two.movements[0])
    requires one.movements[0].amount == two.movements[0].amount && 2 * one.movements[0].amount <= MAX_INT64
    ensures var died := Consume(Durable(b, t, i), one, Left(1));
            var took := Consume(Durable(died.state.books, t, j), two, Unlimited);
            var again := Consume(Durable(took.state.books, t, i), one, p);
            && died.status == Crashed && died.state.cursor == i
            && took.status == Fine
            && again == Progress(Durable(took.state.books, t, i), p, Stopped(PostRefused(InsufficientFunds)))
  {
    hide Outgoing, PaysOut, ValidBooks, RunSettle, Consume, IsShort, Payable, SpendsTheOpening, SlotOf, AmountOf,
      SoundTracking;
    var e, f := Outgoing(t, one), Outgoing(t, two);
    OneSpendsTheOther(b, t, one, two);
    OutgoingIsPayable(b, t, one);
    OutgoingIsPayable(b, t, two);
    FirstMovementThere(t, one);
    FirstMovementThere(t, two);
    SpentOpeningWedges(b, e, f, 0, p);
    PaysOutIsOneSettlement(Durable(b, t, i), one, Left(1));
    var died := RunSettle(b, e, Left(1)).books;
    RunSettleKeeps(b, e, Left(1));
    PaysOutIsOneSettlement(Durable(died, t, j), two, Unlimited);
    var took := RunSettle(died, f, Unlimited).books;
    RunSettleKeeps(died, f, Unlimited);
    PaysOutIsOneSettlement(Durable(took, t, i), one, p);
  }
}
