/** The main results about one stream, for every run with crashes in it. */
module IngestionTheorems {
  import opened Common
  import opened Ledger
  import opened Ingestion
  import opened CrashSafety
  import opened IngestionRuns
  import opened Bookkeeping
  import opened Openings
  import opened NoWedge
  import opened StreamBooks

  // ----- what an account paid and received, read off the stream -----

  /** A movement as one account sees it: first what it pays, then what it gets. */
  function MovementFlow(t: Tracking, m: Movement, a: Account, s: Asset): seq<int> {
    if !InAsset(m, s) then [] else
      (if m.from in t && t[m.from].account == a then [-m.amount] else []) +
      (if m.to in t && t[m.to].account == a then [m.amount] else [])
  }

  function RecordFlow(t: Tracking, rec: Record, n: nat, a: Account, s: Asset): seq<int>
    requires n <= |rec.movements|
  {
    if n == 0 then [] else RecordFlow(t, rec, n - 1, a, s) + MovementFlow(t, rec.movements[n - 1], a, s)
  }

  /** Everything an account paid and received in a stream, in order. */
  function StreamFlow(t: Tracking, recs: seq<Record>, a: Account, s: Asset): seq<int> {
    if recs == [] then [] else
      var init, last := recs[..|recs| - 1], recs[|recs| - 1];
      StreamFlow(t, init, a, s) + RecordFlow(TrackedAfter(t, init), last, |last.movements|, a, s)
  }

  lemma {:induction false} FlowConcat(xs: seq<Action>, ys: seq<Action>, a: Account, s: Asset)
    ensures ActionFlow(xs + ys, a, s) == ActionFlow(xs, a, s) + ActionFlow(ys, a, s)
    decreases |xs|
  {
    if xs == [] {
      assert xs + ys == ys;
    } else {
      assert (xs + ys)[0] == xs[0] && (xs + ys)[1..] == xs[1..] + ys;
      FlowConcat(xs[1..], ys, a, s);
      var first := if xs[0].Settle? then PostingFlow(xs[0].entry.req.postings, a, s) else [];
      assert first + (ActionFlow(xs[1..], a, s) + ActionFlow(ys, a, s))
          == first + ActionFlow(xs[1..], a, s) + ActionFlow(ys, a, s);
    }
  }

  lemma SettleFlow(e: Entry, a: Account, s: Asset)
    ensures ActionFlow([Settle(e)], a, s) == PostingFlow(e.req.postings, a, s)
  {
    assert [Settle(e)][1..] == [];
  }

  lemma RegisterFlow(x: Account, a: Account, s: Asset)
    ensures ActionFlow([Register(x)], a, s) == []
  {
    assert [Register(x)][1..] == [];
  }

  /** The postings of a movement's entries are the movement, seen by any account that is
      not a counterparty. */
  lemma MovementFlowIsPosted(t: Tracking, rec: Record, n: nat, a: Account, s: Asset)
    requires n < |rec.movements| && Readable(t, rec.movements[n]) && !AllowsNegative(a)
    ensures ActionFlow(MovementActions(t, rec, n), a, s) == MovementFlow(t, rec.movements[n], a, s)
  {
    var m := rec.movements[n];
    if Concerns(t, m) {
      hide MovementActions, MovementFlow;
      if m.from in t && m.to in t && t[m.from].org == t[m.to].org {
        InternalFlow(t, rec, n, a, s);
      } else {
        CrossingFlow(t, rec, n, a, s);
      }
    }
  }

  lemma InternalFlow(t: Tracking, rec: Record, n: nat, a: Account, s: Asset)
    requires n < |rec.movements| && Readable(t, rec.movements[n])
    requires var m := rec.movements[n]; m.from in t && m.to in t && t[m.from].org == t[m.to].org
    ensures ActionFlow(MovementActions(t, rec, n), a, s) == MovementFlow(t, rec.movements[n], a, s)
  {
    hide ActionFlow, PostingFlow;
    var m := rec.movements[n];
    var e := SendEntry(rec, n, t[m.from], t[m.to], ResolveAsset(m).value, m.amount);
    assert MovementActions(t, rec, n) == [Settle(e)];
    SettleFlow(e, a, s);
    TwoPostingFlow(e.req.postings, a, s);
  }

  lemma CrossingFlow(t: Tracking, rec: Record, n: nat, a: Account, s: Asset)
    requires n < |rec.movements| && Readable(t, rec.movements[n]) && !AllowsNegative(a)
    requires Concerns(t, rec.movements[n])
    requires var m := rec.movements[n]; !(m.from in t && m.to in t && t[m.from].org == t[m.to].org)
    ensures ActionFlow(MovementActions(t, rec, n), a, s) == MovementFlow(t, rec.movements[n], a, s)
  {
    hide ActionFlow, PostingFlow;
    var m := rec.movements[n];
    var z := ResolveAsset(m).value;
    var from := if m.from in t then [Settle(WithdrawalEntry(rec, n, t[m.from], z, m.amount))] else [];
    var to := if m.to in t then [Settle(DepositEntry(rec, n, t[m.to], z, m.amount))] else [];
    var regs := CounterpartiesFor(t, m);
    assert MovementActions(t, rec, n) == regs + (from + to);
    hide MovementActions, CounterpartiesFor, WithdrawalEntry, DepositEntry;
    FlowConcat(regs, from + to, a, s);
    FlowConcat(from, to, a, s);
    CounterpartyFlow(t, m, a, s);
    BoundaryFlow(t, rec, n, z, a, s);
    NoFlow(a, s);
  }

  lemma NoFlow(a: Account, s: Asset)
    ensures ActionFlow([], a, s) == []
  {
  }

  /** Each half of a movement across an org's boundary. */
  lemma BoundaryFlow(t: Tracking, rec: Record, n: nat, z: Asset, a: Account, s: Asset)
    requires n < |rec.movements| && !AllowsNegative(a)
    ensures var m := rec.movements[n];
            && (m.from in t ==> ActionFlow([Settle(WithdrawalEntry(rec, n, t[m.from], z, m.amount))], a, s)
                                == if t[m.from].account == a && z == s then [-m.amount] else [])
            && (m.to in t ==> ActionFlow([Settle(DepositEntry(rec, n, t[m.to], z, m.amount))], a, s)
                              == if t[m.to].account == a && z == s then [m.amount] else [])
  {
    hide ActionFlow, PostingFlow;
    var m := rec.movements[n];
    if m.from in t {
      var e := WithdrawalEntry(rec, n, t[m.from], z, m.amount);
      SettleFlow(e, a, s);
      TwoPostingFlow(e.req.postings, a, s);
    }
    if m.to in t {
      var e := DepositEntry(rec, n, t[m.to], z, m.amount);
      SettleFlow(e, a, s);
      TwoPostingFlow(e.req.postings, a, s);
    }
  }

  lemma CounterpartyFlow(t: Tracking, m: Movement, a: Account, s: Asset)
    ensures ActionFlow(CounterpartiesFor(t, m), a, s) == []
  {
    if !(m.from in t && m.to in t && t[m.from].org == t[m.to].org) {
      var from := if m.from in t then [Register(External(t[m.from].org))] else [];
      var to := if m.to in t then [Register(External(t[m.to].org))] else [];
      FlowConcat(from, to, a, s);
      if m.from in t {
        RegisterFlow(External(t[m.from].org), a, s);
      }
      if m.to in t {
        RegisterFlow(External(t[m.to].org), a, s);
      }
    }
  }

  lemma {:induction false} RecordFlowIsPosted(t: Tracking, rec: Record, n: nat, a: Account, s: Asset)
    requires n <= |rec.movements| && ReadableRecord(t, rec) && !AllowsNegative(a)
    ensures ActionFlow(WorkUpTo(t, rec, n), a, s) == RecordFlow(t, rec, n, a, s)
  {
    hide MovementActions, MovementFlow, AllowsNegative, Readable, WellFormed;
    if n > 0 {
      RecordFlowIsPosted(t, rec, n - 1, a, s);
      MovementFlowIsPosted(t, rec, n - 1, a, s);
      FlowConcat(WorkUpTo(t, rec, n - 1), MovementActions(t, rec, n - 1), a, s);
    }
  }

  lemma {:induction false} StreamFlowIsPosted(t: Tracking, recs: seq<Record>, a: Account, s: Asset)
    requires ReadableStream(t, recs) && !AllowsNegative(a)
    ensures ActionFlow(AllWork(t, recs), a, s) == StreamFlow(t, recs, a, s)
  {
    hide WorkUpTo, RecordFlow, AllowsNegative, ReadableStream, ReadableRecord;
    if recs != [] {
      var init, last := recs[..|recs| - 1], recs[|recs| - 1];
      ReadablePrefix(t, recs);
      StreamFlowIsPosted(t, init, a, s);
      RecordFlowIsPosted(TrackedAfter(t, init), last, |last.movements|, a, s);
      FlowConcat(AllWork(t, init), Work(TrackedAfter(t, init), last), a, s);
    }
  }

  // ----- exactly once -----

  /** Position i is where the log holds a request, and the only one under its org and key. */
  ghost predicate OnlyAt(txs: seq<Request>, r: Request, i: nat) {
    && i < |txs| && txs[i].org == r.org && txs[i].key == r.key && ContentOf(txs[i]) == ContentOf(r)
    && forall j :: 0 <= j < |txs| && txs[j].org == r.org && txs[j].key == r.key ==> j == i
  }

  /** Exactly once, in every state of every run over every stream, whatever the books held
      before and whatever comes later: of each record the cursor is past, each affected org
      has each movement in exactly one transaction. */
  lemma OneTransactionEach(start: Durable, stream: seq<Record>, calls: seq<Call>, act: Action) returns (i: nat)
    requires Begins(start, stream) && act.Settle?
    requires act in AllWork(start.tracked, stream[..RunCalls(start, stream, calls).cursor])
    ensures OnlyAt(RunCalls(start, stream, calls).books.txs, act.entry.req, i)
  {
    var d := RunCalls(start, stream, calls);
    var r := act.entry.req;
    ExactlyOnce(start, stream, calls);
    assert start.cursor == 0 && ValidBooks(start.books) && UniqueKeys(d.books.txs);
    var acts := AllWork(start.tracked, stream[..d.cursor]);
    UndisturbedIsOneRun(start, stream, d.cursor);
    var done := Undisturbed(start, stream, d.cursor).value.books;
    hide RunCalls, Begins, AllWork, ValidBooks, Undisturbed, RunActions;
    var k :| 0 <= k < |acts| && acts[k] == act;
    FinishedRunIsDone(start.books, acts, Unlimited, k);
    RecordedLater(done, d.books, r);
    i := IndexOf(d.books.txs, r.org, r.key);
  }

  // ----- a payment between two orgs -----

  /** In an org's own log, exactly one transaction under a key, which moves an amount between
      one of its accounts and its counterparty and touches no other account. */
  ghost predicate BookedOnce(txs: seq<Request>, org: OrgId, key: string, own: Account, s: Asset, amount: int) {
    exists i :: 0 <= i < |txs| && BookedAt(txs, i, org, key, own, s, amount)
  }

  ghost predicate BookedAt(txs: seq<Request>, i: nat, org: OrgId, key: string, own: Account, s: Asset, amount: int)
    requires i < |txs|
  {
    && txs[i].org == org && txs[i].key == key
    && (forall j :: 0 <= j < |txs| && txs[j].org == org && txs[j].key == key ==> j == i)
    && (forall a: Account, z: Asset ::
          LineSum(txs[i].postings, a, z) == (if a == own && z == s then amount else 0)
                                            - (if a == External(org) && z == s then amount else 0))
    && (forall p :: p in txs[i].postings ==> p.account.org == org)
  }

  lemma TwoElements<T>(ps: seq<T>, x: T, y: T)
    requires multiset(ps) == multiset([x, y])
    ensures ps == [x, y] || ps == [y, x]
  {
    assert |ps| == |multiset(ps)| == 2;
    assert multiset(ps) == multiset{ps[0], ps[1]} by {
      assert ps == [ps[0]] + [ps[1]];
    }
    assert ps[0] in multiset{x, y} && ps[1] in multiset{x, y};
    if ps[0] == x {
      assert multiset{ps[0], ps[1]} - multiset{x} == multiset{ps[1]};
      assert multiset{x, y} - multiset{x} == multiset{y};
      assert ps[1] in multiset{y};
    } else {
      assert multiset{ps[0], ps[1]} - multiset{y} == multiset{ps[1]};
      assert multiset{x, y} - multiset{y} == multiset{x};
      assert ps[1] in multiset{x};
    }
  }

  /** Whatever order its lines are kept in, a withdrawal or deposit does this. */
  lemma BoundaryEntryBooks(txs: seq<Request>, i: nat, r: Request, own: Account, s: Asset, amount: int)
    requires OnlyAt(txs, r, i) && own.org == r.org && own != External(r.org)
    requires r.postings == [Posting(own, s, amount), Posting(External(r.org), s, -amount)]
    ensures BookedOnce(txs, r.org, r.key, own, s, amount)
  {
    var ps := txs[i].postings;
    assert multiset(ps) == multiset(r.postings) by {
      assert ContentOf(txs[i]).lines == ContentOf(r).lines;
    }
    TwoElements(ps, r.postings[0], r.postings[1]);
    forall a: Account, z: Asset ensures LineSum(ps, a, z) == (if a == own && z == s then amount else 0)
                                                             - (if a == External(r.org) && z == s then amount else 0)
    {
      TwoLineSum(ps, a, z);
    }
    assert BookedAt(txs, i, r.org, r.key, own, s, amount);
  }

  /** The movement joins tracked addresses of two different orgs. */
  predicate Crosses(t: Tracking, m: Movement) {
    m.from in t && m.to in t && t[m.from].org != t[m.to].org
  }

  lemma CrossingIsListed(t: Tracking, rec: Record, n: nat)
    requires n < |rec.movements| && Crosses(t, rec.movements[n])
    requires !rec.movements[n].unreadable && rec.movements[n].amount > 0 && ResolveAsset(rec.movements[n]).Some?
    ensures var m := rec.movements[n];
            var s := ResolveAsset(m).value;
            && Settle(WithdrawalEntry(rec, n, t[m.from], s, m.amount)) in Work(t, rec)
            && Settle(DepositEntry(rec, n, t[m.to], s, m.amount)) in Work(t, rec)
  {
    var m := rec.movements[n];
    var s := ResolveAsset(m).value;
    var w, d := WithdrawalEntry(rec, n, t[m.from], s, m.amount), DepositEntry(rec, n, t[m.to], s, m.amount);
    var acts := MovementActions(t, rec, n);
    assert acts[2] == Settle(w) && acts[3] == Settle(d);
    assert Settle(w) in acts && Settle(d) in acts;
    WorkContains(t, rec, |rec.movements|, n, Settle(w));
    WorkContains(t, rec, |rec.movements|, n, Settle(d));
  }

  lemma {:induction false} RecordIsListed(t: Tracking, recs: seq<Record>, k: nat, act: Action)
    requires k < |recs| && act in Work(TrackedAfter(t, recs[..k]), recs[k])
    ensures act in AllWork(t, recs)
  {
    hide WorkUpTo, TrackedAfter;
    AllWorkGrows(t, recs, k + 1);
    var part := recs[..k + 1];
    assert part[..|part| - 1] == recs[..k] && part[|part| - 1] == recs[k];
    assert act in AllWork(t, part);
    hide AllWork;
  }

  /**
   Across two orgs, in every run: a movement between tracked addresses of two orgs, in a record
   the cursor is past, is one transaction in each org's books under the movement's key. In
   the payer's, its account is down by the amount and its counterparty up; in the payee's,
   its account is up and its counterparty down; and neither touches anything else.
   */
  lemma CrossingLeavesAPair(start: Durable, stream: seq<Record>, calls: seq<Call>, k: nat, n: nat) returns (s: Asset)
    requires Begins(start, stream) && k < RunCalls(start, stream, calls).cursor
    requires n < |stream[k].movements| && Crosses(TrackedAfter(start.tracked, stream[..k]), stream[k].movements[n])
    ensures var t, m, key := TrackedAfter(start.tracked, stream[..k]), stream[k].movements[n], MovementKey(stream[k], n);
            var txs := RunCalls(start, stream, calls).books.txs;
            && InAsset(m, s)
            && BookedOnce(txs, t[m.from].org, key, t[m.from].account, s, -m.amount)
            && BookedOnce(txs, t[m.to].org, key, t[m.to].account, s, m.amount)
  {
    hide *;
    BeginsSoundly(start, stream);
    var d := RunCalls(start, stream, calls);
    var t, rec := TrackedAfter(start.tracked, stream[..k]), stream[k];
    var m := rec.movements[n];
    CrossingConcerns(t, m);
    ConsumedIsReadable(start, stream, calls, k, n);
    ResolvedIsNamed(m);
    s := ResolveAsset(m).value;
    TrackingStaysSound(start.tracked, stream[..k]);
    CrossingIsListed(t, rec, n);
    var recs := stream[..d.cursor];
    assert recs[..k] == stream[..k] && recs[k] == rec;
    var w := WithdrawalEntry(rec, n, t[m.from], s, m.amount);
    var e := DepositEntry(rec, n, t[m.to], s, m.amount);
    RecordIsListed(start.tracked, recs, k, Settle(w));
    RecordIsListed(start.tracked, recs, k, Settle(e));
    var i := OneTransactionEach(start, stream, calls, Settle(w));
    var j := OneTransactionEach(start, stream, calls, Settle(e));
    CrossingParts(t, rec, n);
    BoundaryEntryBooks(d.books.txs, i, w.req, t[m.from].account, s, -m.amount);
    BoundaryEntryBooks(d.books.txs, j, e.req, t[m.to].account, s, m.amount);
  }

  lemma ResolvedIsNamed(m: Movement)
    ensures ResolveAsset(m).Some? <==> NamesAsset(m)
    ensures forall s :: InAsset(m, s) <==> ResolveAsset(m) == Some(s)
  {
  }

  lemma BeginsSoundly(start: Durable, stream: seq<Record>)
    requires Begins(start, stream)
    ensures start.cursor == 0 && SoundTracking(start.tracked)
  {
  }

  lemma CrossingConcerns(t: Tracking, m: Movement)
    requires Crosses(t, m)
    ensures m.from in t && m.to in t && Concerns(t, m)
  {
  }

  lemma CrossingParts(t: Tracking, rec: Record, n: nat)
    requires SoundTracking(t) && n < |rec.movements| && Crosses(t, rec.movements[n]) && ResolveAsset(rec.movements[n]).Some?
    ensures var m := rec.movements[n];
            var from, to, s := t[m.from], t[m.to], ResolveAsset(m).value;
            var w, e := WithdrawalEntry(rec, n, from, s, m.amount).req, DepositEntry(rec, n, to, s, m.amount).req;
            && w.org == from.org == from.account.org && from.account != External(from.org) && w.key == MovementKey(rec, n)
            && w.postings == [Posting(from.account, s, -m.amount), Posting(External(w.org), s, -(-m.amount))]
            && e.org == to.org == to.account.org && to.account != External(to.org) && e.key == MovementKey(rec, n)
            && e.postings == [Posting(to.account, s, m.amount), Posting(External(e.org), s, -m.amount)]
  {
    hide MovementKey;
  }

  /** A record the cursor is past had only readable movements of tracked addresses. */
  lemma ConsumedIsReadable(start: Durable, stream: seq<Record>, calls: seq<Call>, k: nat, n: nat)
    requires Begins(start, stream) && k < RunCalls(start, stream, calls).cursor && n < |stream[k].movements|
    requires Concerns(TrackedAfter(start.tracked, stream[..k]), stream[k].movements[n])
    ensures var m := stream[k].movements[n]; !m.unreadable && m.amount > 0 && NamesAsset(m)
  {
    var d := RunCalls(start, stream, calls);
    ExactlyOnce(start, stream, calls);
    UndisturbedBefore(start, stream, k + 1, d.cursor);
    UndisturbedBefore(start, stream, k, d.cursor);
    UndisturbedIsSound(start, stream, k);
    var c := Undisturbed(start, stream, k).value;
    assert Consume(c, stream[k], Unlimited).status == Fine;
    assert RunActions(c.books, Work(c.tracked, stream[k]), Unlimited).status == Fine;
    hide RunCalls, Begins, Undisturbed, RunActions, ValidBooks;
    FinishedMovementIsReadable(c.books, c.tracked, stream[k], n);
  }

  /** A record that got through had only readable movements. */
  lemma FinishedMovementIsReadable(b: Books, t: Tracking, rec: Record, n: nat)
    requires ValidBooks(b) && n < |rec.movements|
    requires RunActions(b, Work(t, rec), Unlimited).status == Fine
    requires Concerns(t, rec.movements[n])
    ensures NamesAsset(rec.movements[n]) && rec.movements[n].amount > 0 && !rec.movements[n].unreadable
  {
    var acts := Work(t, rec);
    var m := rec.movements[n];
    if m.unreadable || m.amount <= 0 || ResolveAsset(m).None? {
      var act := MovementActions(t, rec, n)[0];
      assert act.Halt? && act in MovementActions(t, rec, n);
      WorkContains(t, rec, |rec.movements|, n, act);
      var i :| 0 <= i < |acts| && acts[i] == act;
      FinishedRunIsDone(b, acts, Unlimited, i);
    }
  }

  // ----- the setting -----

  /** One readable stream that the books, whatever they hold, have seen nothing of. */
  ghost predicate NewStream(start: Durable, stream: seq<Record>) {
    && Begins(start, stream)
    && NewSlots(start.books, AllWork(start.tracked, stream))
    && TracksRegistered(start.tracked, start.books.accounts)
    && ReadableStream(start.tracked, stream)
  }

  lemma {:induction false} ReadablePart(t: Tracking, stream: seq<Record>, k: nat)
    requires ReadableStream(t, stream) && k <= |stream|
    ensures ReadableStream(t, stream[..k])
    decreases |stream|
  {
    hide ReadableRecord;
    if k < |stream| {
      ReadablePrefix(t, stream);
      var init := stream[..|stream| - 1];
      ReadablePart(t, init, k);
      assert init[..k] == stream[..k];
    } else {
      assert stream[..k] == stream;
    }
  }

  lemma StreamIsFresh(start: Durable, stream: seq<Record>, k: nat)
    requires NewStream(start, stream) && k <= |stream|
    ensures Fresh(start.books, AllWork(start.tracked, stream[..k]))
    ensures Prepared(start.books.accounts, AllWork(start.tracked, stream[..k]))
  {
    hide ValidBooks, PlainActions, DistinctSlots, Prepared, ReadableStream, AllWork, Free;
    ReadablePart(start.tracked, stream, k);
    AllWorkIsPlain(start.tracked, stream[..k]);
    AllWorkIsPrepared(start.books.accounts, start.tracked, stream[..k]);
    AllWorkGrows(start.tracked, stream, k);
    var part, all := AllWork(start.tracked, stream[..k]), AllWork(start.tracked, stream);
    assert forall i :: 0 <= i < |part| ==> part[i] == all[i];
  }

  // ----- the books of the undisturbed run -----

  /** What an account must have had that was never seen to arrive, over and above what the
      books say it holds: the largest deficit of its flow, less that. */
  function Missing(held: int, flow: seq<int>): int {
    Max(0, MaxDeficit(flow) - held)
  }

  /** The books after records new to the books b: the log grew by their entries in order,
      openings aside; each account was opened with exactly what was missing; and it holds
      what it held, plus its flow, plus that. */
  ghost predicate BooksAfter(b: Books, t: Tracking, recs: seq<Record>, c: Books) {
    && Payments(c.txs) == Payments(b.txs) + ActionRequests(AllWork(t, recs))
    && forall a: Account, s: Asset :: !AllowsNegative(a) ==>
         var held, flow := Held(b.balances, a, s), StreamFlow(t, recs, a, s);
         && OpeningSum(c.txs, a, s) == OpeningSum(b.txs, a, s) + Missing(held, flow)
         && Held(c.balances, a, s) == held + SumSeq(flow) + Missing(held, flow)
  }

  lemma StartIsReconciled(b: Books, a: Account, s: Asset)
    requires ValidBooks(b) && !AllowsNegative(a)
    ensures Held(b.balances, a, s) >= 0
    ensures Reconciled(b, [Held(b.balances, a, s)], OpeningSum(b.txs, a, s), a, s)
  {
    NotOverdrawn(b, a, s);
    hide ValidBooks, OpeningSum;
    MaxDeficitHolding(Held(b.balances, a, s), []);
    assert [Held(b.balances, a, s)] + [] == [Held(b.balances, a, s)];
  }

  lemma AccountIsOpened(b: Books, acts: seq<Action>, a: Account, s: Asset)
    requires ValidBooks(b) && Fresh(b, acts) && RunActions(b, acts, Unlimited).status == Fine && !AllowsNegative(a)
    ensures var c, held, flow := RunActions(b, acts, Unlimited).books, Held(b.balances, a, s), ActionFlow(acts, a, s);
            && OpeningSum(c.txs, a, s) == OpeningSum(b.txs, a, s) + Missing(held, flow)
            && Held(c.balances, a, s) == held + SumSeq(flow) + Missing(held, flow)
  {
    hide ValidBooks, Fresh, RunActions, AllowsNegative, OpeningSum, ActionFlow;
    StartIsReconciled(b, a, s);
    var held := Held(b.balances, a, s);
    ListReconciles(b, acts, [held], OpeningSum(b.txs, a, s), a, s);
    MaxDeficitHolding(held, ActionFlow(acts, a, s));
  }

  /** Least opening balances. From any books, after k new records every account was opened with
      exactly what its flow shows to have been missing from what it held. */
  lemma LeastOpenings(start: Durable, stream: seq<Record>, k: nat)
    requires NewStream(start, stream) && k <= |stream| && Undisturbed(start, stream, k).Some?
    ensures BooksAfter(start.books, start.tracked, stream[..k], Undisturbed(start, stream, k).value.books)
  {
    assert start.cursor == 0 && ValidBooks(start.books);
    hide ValidBooks, RunActions, Fresh, Prepared, Undisturbed, AllWork, ReadableStream, OpeningSum, StreamFlow;
    var acts := AllWork(start.tracked, stream[..k]);
    UndisturbedIsOneRun(start, stream, k);
    StreamIsFresh(start, stream, k);
    ListPays(start.books, acts);
    ReadablePart(start.tracked, stream, k);
    forall a: Account, s: Asset | !AllowsNegative(a)
      ensures ActionFlow(acts, a, s) == StreamFlow(start.tracked, stream[..k], a, s)
      ensures var c, held, flow := RunActions(start.books, acts, Unlimited).books, Held(start.books.balances, a, s),
                                   ActionFlow(acts, a, s);
              && OpeningSum(c.txs, a, s) == OpeningSum(start.books.txs, a, s) + Missing(held, flow)
              && Held(c.balances, a, s) == held + SumSeq(flow) + Missing(held, flow)
    {
      AccountIsOpened(start.books, acts, a, s);
      StreamFlowIsPosted(start.tracked, stream[..k], a, s);
    }
  }

  /** The same for every run with deaths anywhere, once the stream is consumed. */
  lemma EveryRunKeepsTheseBooks(start: Durable, stream: seq<Record>, calls: seq<Call>)
    requires NewStream(start, stream)
    requires RunCalls(start, stream, calls).cursor == |stream|
    ensures BooksAfter(start.books, start.tracked, stream, RunCalls(start, stream, calls).books)
  {
    assert start.cursor == 0 && Begins(start, stream);
    hide BooksAfter, NewStream, Begins, RunCalls;
    ExactlyOnce(start, stream, calls);
    LeastOpenings(start, stream, |stream|);
    assert stream[..|stream|] == stream;
  }

  /** And for a stream new to the books, the one transaction is the request itself, line for line. */
  lemma OneTransactionEachAsAsked(start: Durable, stream: seq<Record>, calls: seq<Call>, act: Action) returns (i: nat)
    requires NewStream(start, stream) && act.Settle?
    requires act in AllWork(start.tracked, stream[..RunCalls(start, stream, calls).cursor])
    ensures var txs := RunCalls(start, stream, calls).books.txs;
            OnlyAt(txs, act.entry.req, i) && txs[i] == act.entry.req
  {
    assert Begins(start, stream) && start.cursor == 0;
    var d := RunCalls(start, stream, calls);
    ExactlyOnce(start, stream, calls);
    LeastOpenings(start, stream, d.cursor);
    var done := Undisturbed(start, stream, d.cursor).value.books.txs;
    hide RunCalls, NewStream, Begins, AllWork, ValidBooks, Undisturbed, OnlyAt;
    i := OneTransactionEach(start, stream, calls, act);
    var asked := ActionRequests(AllWork(start.tracked, stream[..d.cursor]));
    RequestedIsListed(AllWork(start.tracked, stream[..d.cursor]), act);
    assert act.entry.req in Payments(start.books.txs) + asked;
    PaymentIsLogged(done, act.entry.req);
    var j :| 0 <= j < |done| && done[j] == act.entry.req;
    assert d.books.txs[j] == act.entry.req;
    OnlyThere(d.books.txs, act.entry.req, i, j);
  }

  lemma OnlyThere(txs: seq<Request>, r: Request, i: nat, j: nat)
    requires OnlyAt(txs, r, i) && j < |txs| && txs[j] == r
    ensures i == j
  {
  }

  lemma {:induction false} RequestedIsListed(acts: seq<Action>, act: Action)
    requires act in acts && act.Settle?
    ensures act.entry.req in ActionRequests(acts)
    decreases |acts|
  {
    if acts[0] != act {
      assert act in acts[1..];
      RequestedIsListed(acts[1..], act);
    }
  }

  lemma {:induction false} PaymentIsLogged(txs: seq<Request>, r: Request)
    requires r in Payments(txs)
    ensures r in txs
  {
    if r != txs[|txs| - 1] {
      PaymentIsLogged(txs[..|txs| - 1], r);
    }
  }

  // ----- from books nothing has been posted to -----

  lemma EmptyBooksAreNew(start: Durable, stream: seq<Record>)
    requires Begins(start, stream) && start.books.txs == []
    requires TracksRegistered(start.tracked, start.books.accounts) && ReadableStream(start.tracked, stream)
    ensures NewStream(start, stream)
    ensures forall a: Account, s: Asset :: Held(start.books.balances, a, s) == 0
  {
    forall a: Account, s: Asset ensures Held(start.books.balances, a, s) == 0 {
      assert Held(start.books.balances, a, s) == EntrySum(start.books.txs, a, s);
    }
    hide ValidBooks, AllWork, ReadableStream;
  }

  /** From empty books the opening is the largest deficit itself, the balance the net flow plus
      that, and the log, openings aside, the entries of the stream, each exactly as asked. */
  lemma BooksFromEmpty(start: Durable, stream: seq<Record>, calls: seq<Call>)
    requires Begins(start, stream) && start.books.txs == []
    requires TracksRegistered(start.tracked, start.books.accounts) && ReadableStream(start.tracked, stream)
    requires RunCalls(start, stream, calls).cursor == |stream|
    ensures var b := RunCalls(start, stream, calls).books;
            && Payments(b.txs) == ActionRequests(AllWork(start.tracked, stream))
            && forall a: Account, s: Asset :: !AllowsNegative(a) ==>
                 var flow := StreamFlow(start.tracked, stream, a, s);
                 OpeningSum(b.txs, a, s) == MaxDeficit(flow) && Held(b.balances, a, s) == SumSeq(flow) + MaxDeficit(flow)
  {
    EmptyBooksAreNew(start, stream);
    EveryRunKeepsTheseBooks(start, stream, calls);
    var b := RunCalls(start, stream, calls).books;
    hide RunCalls, NewStream, Begins, AllWork, ReadableStream, StreamFlow;
    forall a: Account, s: Asset | !AllowsNegative(a)
      ensures var flow := StreamFlow(start.tracked, stream, a, s);
              OpeningSum(b.txs, a, s) == MaxDeficit(flow) && Held(b.balances, a, s) == SumSeq(flow) + MaxDeficit(flow)
    {
      MaxDeficitIsLeast(StreamFlow(start.tracked, stream, a, s), MaxDeficit(StreamFlow(start.tracked, stream, a, s)));
      assert OpeningSum(start.books.txs, a, s) == 0 && Held(start.books.balances, a, s) == 0;
    }
    assert Payments(start.books.txs) == [];
  }

  // ----- nothing wedges -----

  /** What an undisturbed process makes of the next record: it takes it, or a balance does not fit. */
  lemma NextRecordOutcome(start: Durable, stream: seq<Record>, k: nat)
    requires NewStream(start, stream) && k < |stream| && Undisturbed(start, stream, k).Some?
    ensures var c := Undisturbed(start, stream, k).value;
            var r := RunActions(c.books, Work(c.tracked, stream[k]), Unlimited);
            r.status == Fine || r.status == Stopped(PostRefused(Overflow))
  {
    assert start.cursor == 0 && ValidBooks(start.books);
    StreamIsFresh(start, stream, k + 1);
    hide ValidBooks, RunActions, Fresh, Prepared, NewStream, WorkUpTo;
    var t := TrackedAfter(start.tracked, stream[..k]);
    var before := AllWork(start.tracked, stream[..k]);
    assert stream[..k + 1][..k] == stream[..k];
    UndisturbedIsOneRun(start, stream, k);
    UndisturbedIsSound(start, stream, k);
    ListOutcome(start.books, before + Work(t, stream[k]));
    RunInTwo(start.books, before, Work(t, stream[k]), Unlimited);
    PowerStays(start.books, before);
  }

  /** One attempt at a record, from wherever earlier attempts at it have left the books, and
      dying or not: what refuses it would have refused it undisturbed. */
  lemma AttemptOutcome(c: Durable, rec: Record, d: Durable, p: Power)
    requires ValidBooks(c.books) && CloseSafe(c.tracked, rec) && Midway(c, rec, d)
    ensures var target := RunActions(c.books, Work(c.tracked, rec), Unlimited).status;
            var got := Consume(d, rec, p).status;
            got == Fine || got == Crashed || got == target
  {
    hide ValidBooks, RunActions, WorkUpTo, CloseSafe;
    var acts := Work(c.tracked, rec);
    var target := RunActions(c.books, acts, Unlimited);
    if d.tracked == c.tracked && RunActions(d.books, acts, Unlimited) == target {
      if RunActions(d.books, acts, p).status.Stopped? {
        RunStopsAlike(d.books, acts, p);
      }
    } else {
      ClosedReplayDoesNothing(c.books, c.tracked, rec, p);
      assert Apply(d, rec, p) == RunClose(d, rec, p);
    }
  }

  /**
   No wedge. In every run over a stream new to the books, with deaths anywhere, at whatever
   record it has got to, half done or not, the next attempt takes the record, dies, or finds
   a balance beyond int64. Nothing is ever refused for funds or for a reused key.
   */
  lemma OnlyOverflowStops(start: Durable, stream: seq<Record>, calls: seq<Call>, p: Power)
    requires NewStream(start, stream) && RunCalls(start, stream, calls).cursor < |stream|
    ensures var d := RunCalls(start, stream, calls);
            Consume(d, stream[d.cursor], p).status in {Fine, Crashed, Stopped(PostRefused(Overflow))}
  {
    assert Begins(start, stream) && start.cursor == 0 && ValidBooks(start.books);
    var d := RunCalls(start, stream, calls);
    RunsStayOnCourse(start, stream, calls);
    var c := Undisturbed(start, stream, d.cursor).value;
    assert Midway(c, stream[d.cursor], d);
    UndisturbedIsSound(start, stream, d.cursor);
    NextRecordOutcome(start, stream, d.cursor);
    assert CloseSafe(c.tracked, stream[d.cursor]);
    hide RunCalls, NewStream, Begins, Undisturbed, Midway, Consume, RunActions, WorkUpTo, ValidBooks;
    AttemptOutcome(c, stream[d.cursor], d, p);
  }

  /** In particular an undisturbed process is stopped by nothing else. */
  lemma UndisturbedOnlyOverflows(start: Durable, stream: seq<Record>, k: nat)
    requires NewStream(start, stream) && k < |stream| && Undisturbed(start, stream, k).Some?
    ensures Consume(Undisturbed(start, stream, k).value, stream[k], Unlimited).status in
            {Fine, Stopped(PostRefused(Overflow))}
  {
    NextRecordOutcome(start, stream, k);
    var c := Undisturbed(start, stream, k).value;
    PowerStays(c.books, Work(c.tracked, stream[k]));
    hide NewStream, Undisturbed, RunActions, WorkUpTo;
  }

  /** When what the books hold and what the stream moves fit an int64, the undisturbed run takes
      all of the stream, and so does one undisturbed call from wherever any crashed run has
      got to. */
  lemma NothingWedges(start: Durable, stream: seq<Record>, calls: seq<Call>, v: int)
    requires NewStream(start, stream) && 0 <= v && Within(start.books.balances, v)
    requires v + Volume(AllWork(start.tracked, stream)) <= MAX_INT64
    ensures Undisturbed(start, stream, |stream|).Some?
    ensures Once(RunCalls(start, stream, calls), stream, |stream|, Unlimited).state
            == Undisturbed(start, stream, |stream|).value
    ensures Once(RunCalls(start, stream, calls), stream, |stream|, Unlimited).state.cursor == |stream|
  {
    assert start.cursor == 0 && ValidBooks(start.books) && Begins(start, stream);
    assert stream[..|stream|] == stream;
    var acts := AllWork(start.tracked, stream);
    StreamIsFresh(start, stream, |stream|);
    hide ValidBooks, RunActions, Fresh, Prepared, NewStream, AllWork, Begins, RunCalls, Once, Within;
    ListFits(start.books, acts, v);
    UndisturbedIsOneRun(start, stream, |stream|);
    UndisturbedIsSound(start, stream, |stream|);
    Recovers(start, stream, calls);
  }
}
