/**
 What every run of the ingester leaves in the log, read off the records and the tracking
 map alone: of each movement taken, one transaction in each org it concerns, saying what
 the movement says; and nothing besides these and the openings of their payers.
 */
module WhatIsBooked {
  import opened Common
  import opened Decimal
  import opened Ledger
  import opened Ingestion
  import opened CrashSafety
  import opened IngestionRuns
  import opened StreamBooks
  import opened IngestionTheorems

  // ----- what a movement means in the books -----

  /** What a movement is called: after its record, and numbered when it is one of several. */
  function NameOf(rec: Record, n: nat): string
    requires n < |rec.movements|
  {
    if |rec.movements| == 1 then rec.id else rec.id + ":" + Itoa(n)
  }

  /** Which org sees a movement as what, and between which accounts: a send where both ends are
      its own, otherwise a withdrawal where it pays and a deposit where it is paid. */
  predicate Sees(t: Tracking, m: Movement, org: OrgId, kind: string, payer: Account, payee: Account) {
    var inside := m.from in t && m.to in t && t[m.from].org == t[m.to].org;
    || (&& inside && kind == "send" && org == t[m.from].org
        && payer == t[m.from].account && payee == t[m.to].account)
    || (&& !inside && m.from in t && kind == "withdrawal" && org == t[m.from].org
        && payer == t[m.from].account && payee == External(org))
    || (&& !inside && m.to in t && kind == "deposit" && org == t[m.to].org
        && payer == External(org) && payee == t[m.to].account)
  }

  /** Two lines in the movement's own asset: so much less here, and as much more there. */
  predicate Moves(m: Movement, amount: int, payer: Account, payee: Account, ps: seq<Posting>) {
    && |ps| == 2 && ps[0].asset == ps[1].asset && InAsset(m, ps[0].asset)
    && multiset(ps) == multiset{Posting(payer, ps[0].asset, -amount), Posting(payee, ps[0].asset, amount)}
  }

  /** A transaction that says of a movement what the record says. */
  predicate Tells(rec: Record, n: nat, org: OrgId, kind: string, payer: Account, payee: Account, tx: Request)
    requires n < |rec.movements|
  {
    && tx.org == org && tx.key == NameOf(rec, n) && tx.kind == kind
    && tx.ref == rec.hash && tx.at == rec.at
    && rec.movements[n].amount > 0
    && Moves(rec.movements[n], rec.movements[n].amount, payer, payee, tx.postings)
  }

  /** A transaction that opens the payer of a movement with some of its amount. */
  predicate Opens(rec: Record, n: nat, org: OrgId, payer: Account, short: int, tx: Request)
    requires n < |rec.movements|
  {
    && tx.org == org && tx.key == NameOf(rec, n) + ":opening:" + Itoa(short) && tx.kind == "opening"
    && tx.ref == "" && tx.at == rec.at
    && 0 < short <= rec.movements[n].amount
    && Moves(rec.movements[n], short, External(org), payer, tx.postings)
  }

  ghost predicate ToldOnce(txs: seq<Request>, rec: Record, n: nat, org: OrgId, kind: string, payer: Account, payee: Account)
    requires n < |rec.movements|
  {
    exists i :: 0 <= i < |txs| && ToldAt(txs, i, rec, n, org, kind, payer, payee)
  }

  ghost predicate ToldAt(
      txs: seq<Request>, i: nat, rec: Record, n: nat, org: OrgId, kind: string, payer: Account, payee: Account)
    requires i < |txs| && n < |rec.movements|
  {
    && Tells(rec, n, org, kind, payer, payee, txs[i])
    && forall j :: 0 <= j < |txs| && txs[j].org == org && txs[j].key == NameOf(rec, n) ==> j == i
  }

  // ----- the settlements of a movement -----

  /** The entry of one movement for one org, and who may be opened for it. */
  predicate EntryTells(rec: Record, n: nat, org: OrgId, kind: string, payer: Account, payee: Account, e: Entry)
    requires n < |rec.movements|
  {
    var m := rec.movements[n];
    && Tells(rec, n, org, kind, payer, payee, e.req)
    && (e.opener.Some? ==> var o := e.opener.value;
                           o.account == payer && o.amount == m.amount && InAsset(m, o.asset) && kind != "deposit")
  }

  lemma SendTells(rec: Record, n: nat, from: Tracked, to: Tracked, s: Asset)
    requires n < |rec.movements| && InAsset(rec.movements[n], s) && rec.movements[n].amount > 0
    ensures EntryTells(rec, n, from.org, "send", from.account, to.account,
                       SendEntry(rec, n, from, to, s, rec.movements[n].amount))
  {
    hide InAsset;
  }

  lemma WithdrawalTells(rec: Record, n: nat, from: Tracked, s: Asset)
    requires n < |rec.movements| && InAsset(rec.movements[n], s) && rec.movements[n].amount > 0
    ensures EntryTells(rec, n, from.org, "withdrawal", from.account, External(from.org),
                       WithdrawalEntry(rec, n, from, s, rec.movements[n].amount))
  {
    hide InAsset;
    assert |"withdrawal"| != |"deposit"|;
  }

  lemma DepositTells(rec: Record, n: nat, to: Tracked, s: Asset)
    requires n < |rec.movements| && InAsset(rec.movements[n], s) && rec.movements[n].amount > 0
    ensures EntryTells(rec, n, to.org, "deposit", External(to.org), to.account,
                       DepositEntry(rec, n, to, s, rec.movements[n].amount))
  {
    hide InAsset;
  }

  lemma SeenIsSettled(t: Tracking, rec: Record, n: nat, org: OrgId, kind: string, payer: Account, payee: Account)
      returns (e: Entry)
    requires n < |rec.movements| && Sees(t, rec.movements[n], org, kind, payer, payee)
    requires !rec.movements[n].unreadable && rec.movements[n].amount > 0 && NamesAsset(rec.movements[n])
    ensures Settle(e) in MovementActions(t, rec, n) && EntryTells(rec, n, org, kind, payer, payee, e)
  {
    hide EntryTells;
    var m := rec.movements[n];
    var s := ResolveAsset(m).value;
    var acts := MovementActions(t, rec, n);
    assert |"send"| < |"deposit"| < |"withdrawal"|;
    if kind == "send" {
      e := SendEntry(rec, n, t[m.from], t[m.to], s, m.amount);
      SendTells(rec, n, t[m.from], t[m.to], s);
      assert acts == [Settle(e)];
    } else if kind == "withdrawal" {
      e := WithdrawalEntry(rec, n, t[m.from], s, m.amount);
      WithdrawalTells(rec, n, t[m.from], s);
      assert acts[if m.to in t then 2 else 1] == Settle(e);
    } else {
      e := DepositEntry(rec, n, t[m.to], s, m.amount);
      DepositTells(rec, n, t[m.to], s);
      assert acts[if m.from in t then 3 else 1] == Settle(e);
    }
  }

  lemma SettledIsSeen(t: Tracking, rec: Record, n: nat, e: Entry)
      returns (org: OrgId, kind: string, payer: Account, payee: Account)
    requires n < |rec.movements| && Settle(e) in MovementActions(t, rec, n)
    ensures Sees(t, rec.movements[n], org, kind, payer, payee)
    ensures EntryTells(rec, n, org, kind, payer, payee, e)
  {
    hide EntryTells;
    var m := rec.movements[n];
    var s := ResolveAsset(m).value;
    org := e.req.org;
    if m.from in t && m.to in t && t[m.from].org == t[m.to].org {
      SendTells(rec, n, t[m.from], t[m.to], s);
      kind, payer, payee := "send", t[m.from].account, t[m.to].account;
    } else if m.from in t && e == WithdrawalEntry(rec, n, t[m.from], s, m.amount) {
      WithdrawalTells(rec, n, t[m.from], s);
      kind, payer, payee := "withdrawal", t[m.from].account, External(org);
    } else {
      DepositTells(rec, n, t[m.to], s);
      kind, payer, payee := "deposit", External(org), t[m.to].account;
    }
  }

  // ----- everything taken is told -----

  /**
   What every run books. In every state of every run, each org a movement concerns, of a
   record the cursor is past, has one transaction under the movement's name: of the kind, at
   the hash and the time, and moving the amount, in the asset and between the accounts, that
   the record and the tracking map say.
   */
  lemma EachMovementIsTold(
      start: Durable, stream: seq<Record>, calls: seq<Call>, k: nat, n: nat,
      org: OrgId, kind: string, payer: Account, payee: Account)
    requires Begins(start, stream) && k < RunCalls(start, stream, calls).cursor && n < |stream[k].movements|
    requires Sees(TrackedAfter(start.tracked, stream[..k]), stream[k].movements[n], org, kind, payer, payee)
    ensures ToldOnce(RunCalls(start, stream, calls).books.txs, stream[k], n, org, kind, payer, payee)
  {
    hide *;
    BeginsSoundly(start, stream);
    var d := RunCalls(start, stream, calls);
    var t, rec := TrackedAfter(start.tracked, stream[..k]), stream[k];
    SeesConcerns(t, rec.movements[n], org, kind, payer, payee);
    ConsumedIsReadable(start, stream, calls, k, n);
    var e := SeenIsSettled(t, rec, n, org, kind, payer, payee);
    var recs := stream[..d.cursor];
    assert recs[..k] == stream[..k] && recs[k] == rec;
    WorkLists(t, rec, n, Settle(e));
    RecordIsListed(start.tracked, recs, k, Settle(e));
    var i := OneTransactionEach(start, stream, calls, Settle(e));
    SameContentTells(d.books.txs, i, rec, n, org, kind, payer, payee, e);
  }

  lemma WorkLists(t: Tracking, rec: Record, n: nat, act: Action)
    requires n < |rec.movements| && act in MovementActions(t, rec, n)
    ensures act in Work(t, rec)
  {
    hide MovementActions;
    WorkContains(t, rec, |rec.movements|, n, act);
  }

  lemma SeesConcerns(t: Tracking, m: Movement, org: OrgId, kind: string, payer: Account, payee: Account)
    requires Sees(t, m, org, kind, payer, payee)
    ensures Concerns(t, m)
  {
  }

  lemma SameContentTells(
      txs: seq<Request>, i: nat, rec: Record, n: nat, org: OrgId, kind: string, payer: Account, payee: Account, e: Entry)
    requires n < |rec.movements| && EntryTells(rec, n, org, kind, payer, payee, e) && OnlyAt(txs, e.req, i)
    ensures ToldOnce(txs, rec, n, org, kind, payer, payee)
  {
    hide NameOf, InAsset;
    var ps, qs := e.req.postings, txs[i].postings;
    assert multiset(qs) == multiset(ps) by {
      assert ContentOf(txs[i]).lines == ContentOf(e.req).lines;
    }
    assert ps == [ps[0]] + [ps[1]];
    TwoElements(qs, ps[0], ps[1]);
    assert ToldAt(txs, i, rec, n, org, kind, payer, payee);
  }

  // ----- nothing else is booked -----

  /** The transaction is the entry's, or opens its payer. */
  ghost predicate FromEntry(e: Entry, tx: Request) {
    || tx == e.req
    || (e.opener.Some? && exists short: int :: OpensFor(e, short, tx))
  }

  predicate OpensFor(e: Entry, short: int, tx: Request)
    requires e.opener.Some?
  {
    0 < short <= e.opener.value.amount && tx == OpeningRequest(e.req, e.opener.value, short)
  }

  ghost predicate FromActions(acts: seq<Action>, tx: Request) {
    exists i :: 0 <= i < |acts| && acts[i].Settle? && FromEntry(acts[i].entry, tx)
  }

  lemma PostAdds(b: Books, r: Request, p: Power)
    ensures var after := RunPost(b, r, p).books.txs; after == b.txs || after == b.txs + [r]
  {
    hide Valid, ColumnsOk, ApplyRows, ContentOf, SingleOrg;
  }

  lemma OpenAdds(b: Books, req: Request, o: Opener, p: Power)
    ensures var after, short := RunOpen(b, req, o, p).books.txs, o.amount - BalanceOf(b, req.org, o.account, o.asset);
            after == b.txs || (short > 0 && after == b.txs + [OpeningRequest(req, o, short)])
  {
    hide RunPost, OpeningRequest;
    var short := o.amount - BalanceOf(b, req.org, o.account, o.asset);
    var r := RunRegister(b, External(req.org), p);
    PostAdds(r.books, OpeningRequest(req, o, short), r.power);
  }

  lemma SettleAdds(b: Books, e: Entry, p: Power)
    requires ValidBooks(b) && Shaped(e)
    ensures var after := RunSettle(b, e, p).books.txs;
            b.txs <= after && forall i :: |b.txs| <= i < |after| ==> FromEntry(e, after[i])
  {
    hide ValidBooks, Post, RunOpen, OpeningRequest, Held;
    PostAdds(b, e.req, p);
    var first := RunPost(b, e.req, p);
    if first.status == Stopped(PostRefused(InsufficientFunds)) {
      ShortIsPart(b, e);
      var o := e.opener.value;
      var short := o.amount - BalanceOf(b, e.req.org, o.account, o.asset);
      OpenAdds(b, e.req, o, p);
      var ready := RunOpen(b, e.req, o, p);
      if short > 0 {
        assert OpensFor(e, short, OpeningRequest(e.req, o, short));
      }
      PostAdds(ready.books, e.req, ready.power);
    }
  }

  lemma ShortIsPart(b: Books, e: Entry)
    requires ValidBooks(b) && Shaped(e) && Post(b, e.req).1 == Refused(InsufficientFunds)
    ensures e.opener.Some?
    ensures var o := e.opener.value; o.amount - BalanceOf(b, e.req.org, o.account, o.asset) <= o.amount
  {
    hide ValidBooks, Post;
    OnlyThePayerIsShort(b, e);
    var o := e.opener.value;
    NotOverdrawn(b, o.account, o.asset);
  }

  lemma {:induction false} ActionsAdd(b: Books, acts: seq<Action>, p: Power)
    requires ValidBooks(b) && ShapedActions(acts)
    ensures var after := RunActions(b, acts, p).books.txs;
            b.txs <= after && forall i :: |b.txs| <= i < |after| ==> FromActions(acts, after[i])
    decreases |acts|
  {
    hide ValidBooks, FromEntry, Shaped, RunSettle;
    if acts != [] {
      var r := RunAction(b, acts[0], p);
      RunActionKeeps(b, acts[0], p);
      if acts[0].Settle? {
        assert ShapedAction(acts[0]);
        SettleAdds(b, acts[0].entry, p);
      }
      if r.status == Fine {
        ActionsAdd(r.books, acts[1..], r.power);
        var after := RunActions(r.books, acts[1..], r.power).books.txs;
        forall i | |b.txs| <= i < |after| ensures FromActions(acts, after[i]) {
          if i >= |r.books.txs| {
            var j :| 0 <= j < |acts[1..]| && acts[1..][j].Settle? && FromEntry(acts[1..][j].entry, after[i]);
            assert acts[j + 1] == acts[1..][j];
          } else {
            assert after[i] == r.books.txs[i];
          }
        }
      }
    }
  }

  lemma WorkAdds(b: Books, t: Tracking, rec: Record, p: Power)
    requires ValidBooks(b) && SoundTracking(t)
    ensures var after := RunActions(b, Work(t, rec), p).books.txs;
            b.txs <= after && forall i :: |b.txs| <= i < |after| ==> FromActions(Work(t, rec), after[i])
  {
    hide ValidBooks, SoundTracking, WorkUpTo, RunActions, FromActions, ShapedActions;
    WorkIsShaped(t, rec, |rec.movements|);
    ActionsAdd(b, Work(t, rec), p);
  }

  /** A transaction about a movement, or one that opens its payer, in an org that sees it. */
  ghost predicate About(
      t: Tracking, rec: Record, n: nat, org: OrgId, kind: string, payer: Account, payee: Account, tx: Request)
    requires n < |rec.movements|
  {
    && Sees(t, rec.movements[n], org, kind, payer, payee)
    && (|| Tells(rec, n, org, kind, payer, payee, tx)
        || (kind != "deposit" && exists short: int :: Opens(rec, n, org, payer, short, tx)))
  }

  ghost predicate AboutRecord(t: Tracking, rec: Record, tx: Request) {
    exists n: nat, org, kind, payer, payee :: n < |rec.movements| && About(t, rec, n, org, kind, payer, payee, tx)
  }

  lemma OpeningOpens(
      rec: Record, n: nat, org: OrgId, kind: string, payer: Account, payee: Account, e: Entry, short: int, tx: Request)
    requires n < |rec.movements| && EntryTells(rec, n, org, kind, payer, payee, e) && e.opener.Some?
    requires OpensFor(e, short, tx)
    ensures kind != "deposit" && Opens(rec, n, org, payer, short, tx)
  {
    hide InAsset;
  }

  lemma EntryIsAbout(t: Tracking, rec: Record, n: nat, e: Entry, tx: Request)
    requires n < |rec.movements| && Settle(e) in MovementActions(t, rec, n) && FromEntry(e, tx)
    ensures AboutRecord(t, rec, tx)
  {
    hide MovementActions, Tells, Opens, OpensFor, Sees;
    var org, kind, payer, payee := SettledIsSeen(t, rec, n, e);
    if tx != e.req {
      var short: int :| OpensFor(e, short, tx);
      OpeningOpens(rec, n, org, kind, payer, payee, e, short, tx);
    }
    assert About(t, rec, n, org, kind, payer, payee, tx);
  }

  lemma WorkIsAbout(t: Tracking, rec: Record, tx: Request)
    requires FromActions(Work(t, rec), tx)
    ensures AboutRecord(t, rec, tx)
  {
    hide FromEntry, MovementActions, WorkUpTo;
    var acts := Work(t, rec);
    var i :| 0 <= i < |acts| && acts[i].Settle? && FromEntry(acts[i].entry, tx);
    var n := WorkComesFrom(t, rec, |rec.movements|, acts[i]);
    EntryIsAbout(t, rec, n, acts[i].entry, tx);
  }

  /** A record that comes back after its address was forgotten is about nothing new. */
  lemma ReplayIsAbout(t: Tracking, rec: Record, tx: Request)
    requires CloseSafe(t, rec) && FromActions(Work(AfterClose(t, rec), rec), tx)
    ensures AboutRecord(t, rec, tx)
  {
    hide FromEntry, MovementActions, WorkUpTo, JoinsClosed;
    var acts := Work(AfterClose(t, rec), rec);
    var i :| 0 <= i < |acts| && acts[i].Settle? && FromEntry(acts[i].entry, tx);
    var n := WorkComesFrom(AfterClose(t, rec), rec, |rec.movements|, acts[i]);
    if rec.closed != "" {
      FewerActionsAfterClose(t, rec, n, acts[i]);
    }
    EntryIsAbout(t, rec, n, acts[i].entry, tx);
  }

  /** The transaction is about a record of the stream before the given one. */
  ghost predicate AboutStream(t: Tracking, stream: seq<Record>, upto: nat, tx: Request) {
    exists k: nat :: k < upto && k < |stream| && AboutRecord(TrackedAfter(t, stream[..k]), stream[k], tx)
  }

  /** The books are the books at the start, and what the stream up to the record in hand booked. */
  ghost predicate OnlyStream(start: Durable, stream: seq<Record>, d: Durable) {
    && start.books.txs <= d.books.txs
    && forall i :: |start.books.txs| <= i < |d.books.txs| ==>
         AboutStream(start.tracked, stream, d.cursor + 1, d.books.txs[i])
  }

  lemma RecordAdds(start: Durable, stream: seq<Record>, d: Durable, p: Power)
    requires Begins(start, stream) && OnCourse(start, stream, d) && d.cursor < |stream|
    ensures var rec, after := stream[d.cursor], RunActions(d.books, Work(d.tracked, stream[d.cursor]), p).books.txs;
            && d.books.txs <= after
            && forall i :: |d.books.txs| <= i < |after| ==>
                 AboutRecord(TrackedAfter(start.tracked, stream[..d.cursor]), rec, after[i])
  {
    var k, rec := d.cursor, stream[d.cursor];
    var t := TrackedAfter(start.tracked, stream[..k]);
    var c := Undisturbed(start, stream, k).value;
    UndisturbedIsSound(start, stream, k);
    TrackingStaysSound(start.tracked, stream[..k]);
    assert CloseSafe(t, rec) && ValidBooks(d.books);
    assert d.tracked == t || d.tracked == AfterClose(t, rec);
    hide Begins, OnCourse, Undisturbed, RunActions, WorkUpTo, ValidBooks, CloseSafe, AboutRecord, FromActions;
    WorkAdds(d.books, d.tracked, rec, p);
    var after := RunActions(d.books, Work(d.tracked, rec), p).books.txs;
    forall i | |d.books.txs| <= i < |after| ensures AboutRecord(t, rec, after[i]) {
      if d.tracked == t {
        WorkIsAbout(t, rec, after[i]);
      } else {
        ReplayIsAbout(t, rec, after[i]);
      }
    }
  }

  lemma ConsumeKeeps(start: Durable, stream: seq<Record>, d: Durable, p: Power)
    requires Begins(start, stream) && OnCourse(start, stream, d) && d.cursor < |stream|
    requires OnlyStream(start, stream, d)
    ensures OnlyStream(start, stream, Consume(d, stream[d.cursor], p).state)
  {
    hide Begins, OnCourse, RunActions, WorkUpTo, AboutRecord;
    RecordAdds(start, stream, d, p);
    var got := Consume(d, stream[d.cursor], p).state;
    assert got.books == RunActions(d.books, Work(d.tracked, stream[d.cursor]), p).books && got.cursor >= d.cursor;
    forall i | |start.books.txs| <= i < |got.books.txs|
      ensures AboutStream(start.tracked, stream, got.cursor + 1, got.books.txs[i])
    {
      if i < |d.books.txs| {
        assert got.books.txs[i] == d.books.txs[i];
      }
    }
  }

  lemma {:induction false} PageKeeps(start: Durable, stream: seq<Record>, d: Durable, recs: seq<Record>, p: Power)
    requires Begins(start, stream) && OnCourse(start, stream, d) && OnlyStream(start, stream, d)
    requires d.cursor + |recs| <= |stream| && recs == stream[d.cursor..d.cursor + |recs|]
    ensures OnlyStream(start, stream, ConsumeAll(d, recs, p).state)
    decreases |recs|
  {
    hide OnCourse, Begins, Consume, OnlyStream;
    if recs != [] {
      assert recs[0] == stream[d.cursor];
      RecordStaysOnCourse(start, stream, d, p);
      ConsumeKeeps(start, stream, d, p);
      var got := Consume(d, recs[0], p);
      if got.status == Fine {
        PageKeeps(start, stream, got.state, recs[1..], got.power);
      }
    }
  }

  /**
   Nothing else. In every state of every run, every transaction the log did not hold at the
   start tells of a movement in a record up to the one in hand, in an org that sees it, or
   opens its payer with no more than its amount.
   */
  lemma {:induction false} NothingElseIsBooked(start: Durable, stream: seq<Record>, calls: seq<Call>)
    requires Begins(start, stream)
    ensures OnlyStream(start, stream, RunCalls(start, stream, calls))
  {
    hide Begins, OnCourse, ConsumeAll, AboutStream;
    BeginsSoundly(start, stream);
    if calls != [] {
      var before, last := calls[..|calls| - 1], calls[|calls| - 1];
      NothingElseIsBooked(start, stream, before);
      RunsStayOnCourse(start, stream, before);
      var d := RunCalls(start, stream, before);
      hide OnlyStream;
      PageKeeps(start, stream, d, Page(stream, d.cursor, last.limit), last.power);
    }
  }
}
