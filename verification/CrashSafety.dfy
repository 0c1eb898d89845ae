/**
 Resumption: a process that dies anywhere in a record's work leaves books from
 which doing the whole record again ends exactly where an undisturbed process ends.
 */
module CrashSafety {
  import opened Ledger
  import opened Ingestion

  lemma TwoRows(accounts: set<Account>, b: Index, ps: seq<Posting>)
    requires |ps| == 2
    ensures ApplyRows(accounts, b, ps) ==
            var first := ApplyRow(accounts, b, ps[0]);
            if first.Failed? then first else ApplyRow(accounts, first.balances, ps[1])
  {
    var first := ApplyRow(accounts, b, ps[0]);
    if first.Inserted? {
      var rest := ps[1..];
      assert rest[0] == ps[1] && rest[1..] == [];
      var second := ApplyRow(accounts, first.balances, rest[0]);
      assert second.Inserted? ==> ApplyRows(accounts, second.balances, []) == second;
      assert ApplyRows(accounts, first.balances, rest) == second;
    }
  }

  lemma NotOverdrawn(b: Books, a: Account, s: Asset)
    requires ValidBooks(b)
    ensures Held(b.balances, a, s) >= 0 || AllowsNegative(a)
  {
  }

  /** Only the paying account can be short: the other end is credited, or is a counterparty. */
  lemma OnlyThePayerIsShort(b: Books, e: Entry)
    requires ValidBooks(b) && Shaped(e)
    requires Post(b, e.req).1 == Refused(InsufficientFunds)
    ensures e.opener.Some?
    ensures Valid(e.req) && ColumnsOk(e.req) && IndexOf(b.txs, e.req.org, e.req.key) == |b.txs|
    ensures e.opener.value.account in b.accounts
    ensures Held(b.balances, e.opener.value.account, e.opener.value.asset) < e.opener.value.amount
    ensures ApplyRow(b.accounts, b.balances, e.req.postings[0]) == Failed(InsufficientFunds)
  {
    hide ValidBooks, Valid, ColumnsOk;
    var ps := e.req.postings;
    NotOverdrawn(b, ps[0].account, ps[0].asset);
    NotOverdrawn(b, ps[1].account, ps[1].asset);
    TwoRows(b.accounts, b.balances, ps);
  }

  /** Registering the counterparty does not change what the payer lacks. */
  lemma StillShort(b: Books, e: Entry, accounts: set<Account>)
    requires ValidBooks(b) && Shaped(e) && b.accounts <= accounts
    requires Post(b, e.req).1 == Refused(InsufficientFunds)
    ensures Post(b.(accounts := accounts), e.req) == (b.(accounts := accounts), Refused(InsufficientFunds))
  {
    OnlyThePayerIsShort(b, e);
    TwoRows(accounts, b.balances, e.req.postings);
  }

  lemma OpeningKeyDiffers(key: string, short: int)
    ensures OpeningKey(key, short) != key
  {
    assert |OpeningKey(key, short)| > |key|;
  }

  /** Once the shortfall is newly booked, the payer is not short any more, and the
      payment's own key is still free. */
  lemma ShortNoMore(b: Books, e: Entry)
    requires ValidBooks(b) && Shaped(e) && e.opener.Some?
    requires Post(b, e.req).1 == Refused(InsufficientFunds)
    ensures var o := e.opener.value;
            var q := OpeningRequest(e.req, o, o.amount - Held(b.balances, o.account, o.asset));
            var (b', out) := Post(b, q);
            out.Posted? && b' != b ==>
              && IndexOf(b'.txs, e.req.org, e.req.key) == |b'.txs|
              && b'.accounts == b.accounts
              && Held(b'.balances, o.account, o.asset) == o.amount
              && Post(b', e.req).1 != Refused(InsufficientFunds)
  {
    hide ValidBooks, Valid, ColumnsOk;
    OnlyThePayerIsShort(b, e);
    var o := e.opener.value;
    var short := o.amount - Held(b.balances, o.account, o.asset);
    var q := OpeningRequest(e.req, o, short);
    var (b', out) := Post(b, q);
    if out.Posted? && b' != b {
      OpeningKeyDiffers(e.req.key, short);
      IndexAppend(b.txs, q, e.req.org, e.req.key);
      assert b'.txs == b.txs + [q];
      TwoRows(b.accounts, b.balances, q.postings);
      assert !AllowsNegative(o.account);
      assert o.account != External(e.req.org);
      assert Held(b'.balances, o.account, o.asset) == o.amount;
      PostKeepsValid(b, q);
      TwoRows(b'.accounts, b'.balances, e.req.postings);
      if Post(b', e.req).1 == Refused(InsufficientFunds) {
        OnlyThePayerIsShort(b', e);
        assert false;
      }
    }
  }

  // ----- done actions stay done, and doing them again does nothing -----

  predicate Done(b: Books, act: Action) {
    match act
    case Register(a) => a.org != 0 && a in b.accounts
    case Settle(e) => Recorded(b, e.req)
    case Halt(_) => false
  }

  lemma DoneMeansNothingToDo(b: Books, act: Action, p: Power)
    requires Done(b, act)
    ensures RunAction(b, act, p) == Run(b, p, Fine)
  {
    if act.Register? {
      assert b.(accounts := b.accounts + {act.account}) == b;
    }
  }

  lemma {:induction false} RecordedLater(b: Books, b': Books, r: Request)
    requires Recorded(b, r) && b.txs <= b'.txs
    ensures Recorded(b', r)
    decreases |b'.txs|
  {
    if |b'.txs| > |b.txs| {
      var init := b'.txs[..|b'.txs| - 1];
      RecordedLater(b, b'.(txs := init), r);
      assert b'.txs == init + [b'.txs[|init|]];
      IndexAppend(init, b'.txs[|init|], r.org, r.key);
    } else {
      assert b'.txs == b.txs;
    }
  }

  lemma DoneStays(b: Books, b': Books, act: Action)
    requires Done(b, act) && b.txs <= b'.txs && b.accounts <= b'.accounts
    ensures Done(b', act)
  {
    if act.Settle? {
      RecordedLater(b, b', act.entry.req);
    }
  }

  lemma PostedIsRecorded(b: Books, r: Request, p: Power)
    requires RunPost(b, r, p).status == Fine
    ensures Recorded(RunPost(b, r, p).books, r)
    ensures RunPost(b, r, Unlimited) == RunPost(b, r, p).(power := Unlimited)
  {
    ReplayIsHarmless(b, r);
  }

  /** An action that finished is done, and ended where an undisturbed one ends. */
  lemma FinishedIsDone(b: Books, act: Action, p: Power)
    requires RunAction(b, act, p).status == Fine
    ensures Done(RunAction(b, act, p).books, act)
    ensures RunAction(b, act, Unlimited) == RunAction(b, act, p).(power := Unlimited)
  {
    hide Post, RunOpen, Recorded;
    if act.Settle? {
      var e := act.entry;
      var first := RunPost(b, e.req, p);
      if first.status == Stopped(PostRefused(InsufficientFunds)) {
        var ready := RunOpen(b, e.req, e.opener.value, p);
        OpenIsUndisturbed(b, e.req, e.opener.value, p);
        PostedIsRecorded(ready.books, e.req, ready.power);
      } else {
        PostedIsRecorded(b, e.req, p);
      }
    }
  }

  lemma {:induction false} FinishedRunIsUndisturbed(b: Books, acts: seq<Action>, p: Power)
    requires RunActions(b, acts, p).status == Fine
    ensures RunActions(b, acts, Unlimited) == RunActions(b, acts, p).(power := Unlimited)
    decreases |acts|
  {
    if acts != [] {
      FinishedIsDone(b, acts[0], p);
      var r := RunAction(b, acts[0], p);
      FinishedRunIsUndisturbed(r.books, acts[1..], r.power);
    }
  }

  lemma {:induction false} FinishedRunIsDone(b: Books, acts: seq<Action>, p: Power, i: nat)
    requires ValidBooks(b)
    requires RunActions(b, acts, p).status == Fine && i < |acts|
    ensures Done(RunActions(b, acts, p).books, acts[i])
    decreases |acts|
  {
    var r := RunAction(b, acts[0], p);
    RunActionKeeps(b, acts[0], p);
    if i == 0 {
      FinishedIsDone(b, acts[0], p);
      RunActionsKeep(r.books, acts[1..], r.power);
      DoneStays(r.books, RunActions(b, acts, p).books, acts[0]);
    } else {
      FinishedRunIsDone(r.books, acts[1..], r.power, i - 1);
    }
  }

  lemma {:induction false} AllDoneMeansNothingToDo(b: Books, acts: seq<Action>, p: Power)
    requires forall i :: 0 <= i < |acts| ==> Done(b, acts[i])
    ensures RunActions(b, acts, p) == Run(b, p, Fine)
    decreases |acts|
  {
    if acts != [] {
      DoneMeansNothingToDo(b, acts[0], p);
      forall i | 0 <= i < |acts[1..]| ensures Done(b, acts[1..][i]) {
        assert acts[1..][i] == acts[i + 1];
      }
      AllDoneMeansNothingToDo(b, acts[1..], p);
    }
  }

  // ----- resumption -----

  /** The delicate case: death between the opening balance and its retry. */
  lemma SettleResumes(b: Books, e: Entry, p: Power)
    requires ValidBooks(b) && Shaped(e)
    ensures RunSettle(RunSettle(b, e, p).books, e, Unlimited) == RunSettle(b, e, Unlimited)
  {
    hide ValidBooks, Post, RunOpen, Shaped;
    var got := RunSettle(b, e, p).books;
    if Post(b, e.req).1 == Refused(InsufficientFunds) {
      OnlyThePayerIsShort(b, e);
      ShortSettleResumes(b, e, p);
    } else if got != b {
      ReplayIsHarmless(b, e.req);
    }
  }

  /** Dying after the counterparty is registered and before the opening is posted. */
  lemma ResumesAfterRegister(b: Books, e: Entry)
    requires ValidBooks(b) && Shaped(e) && e.opener.Some?
    requires Post(b, e.req).1 == Refused(InsufficientFunds) && e.req.org != 0
    ensures var c := b.(accounts := b.accounts + {External(e.req.org)});
            && Post(c, e.req) == (c, Refused(InsufficientFunds))
            && RunOpen(c, e.req, e.opener.value, Unlimited) == RunOpen(b, e.req, e.opener.value, Unlimited)
  {
    hide ValidBooks, Post;
    var c := b.(accounts := b.accounts + {External(e.req.org)});
    OnlyThePayerIsShort(b, e);
    StillShort(b, e, c.accounts);
    assert c.(accounts := c.accounts + {External(e.req.org)}) == c;
  }

  /** Dying after the opening is posted and before the payment is tried again. */
  lemma ResumesAfterOpening(c: Books, e: Entry)
    requires ValidBooks(c) && Shaped(e) && e.opener.Some?
    requires Post(c, e.req).1 == Refused(InsufficientFunds)
    requires RunOpen(c, e.req, e.opener.value, Unlimited).status == Fine
    requires External(e.req.org) in c.accounts && e.req.org != 0
    ensures var d := RunOpen(c, e.req, e.opener.value, Unlimited).books;
            RunSettle(d, e, Unlimited) == RunPost(d, e.req, Unlimited) || d == c
  {
    hide Post, ValidBooks, Valid, ColumnsOk;
    OnlyThePayerIsShort(c, e);
    ShortNoMore(c, e);
    var o := e.opener.value;
    var q := OpeningRequest(e.req, o, o.amount - Held(c.balances, o.account, o.asset));
    assert c.(accounts := c.accounts + {External(e.req.org)}) == c;
    assert RunOpen(c, e.req, o, Unlimited) == RunPost(c, q, Unlimited);
    var d := RunPost(c, q, Unlimited).books;
    if d != c {
      assert Post(c, q).0 == d;
      assert Post(d, e.req).1 != Refused(InsufficientFunds);
    }
  }

  lemma PostResumes(d: Books, e: Entry, p: Power)
    requires RunSettle(d, e, Unlimited) == RunPost(d, e.req, Unlimited)
    ensures RunSettle(RunPost(d, e.req, p).books, e, Unlimited) == RunPost(d, e.req, Unlimited)
  {
    var got := RunPost(d, e.req, p).books;
    if got != d {
      ReplayIsHarmless(d, e.req);
    }
  }

  lemma ShortSettleResumes(b: Books, e: Entry, p: Power)
    requires ValidBooks(b) && Shaped(e) && e.opener.Some?
    requires Post(b, e.req).1 == Refused(InsufficientFunds)
    ensures RunSettle(RunSettle(b, e, p).books, e, Unlimited) == RunSettle(b, e, Unlimited)
  {
    hide ValidBooks, Post, RunOpen;
    OnlyThePayerIsShort(b, e);
    var o := e.opener.value;
    var c := b.(accounts := b.accounts + {External(e.req.org)});
    var ready := RunOpen(b, e.req, o, p);
    ResumesAfterRegister(b, e);
    RegisterKeepsValid(b, External(e.req.org));
    assert RunSettle(c, e, Unlimited) == RunSettle(b, e, Unlimited);
    if ready.status == Fine {
      var d := ready.books;
      OpenIsUndisturbed(b, e.req, o, p);
      ResumesAfterOpening(c, e);
      if d == c {
        assert RunPost(c, e.req, ready.power).books == c;
      } else {
        PostResumes(d, e, ready.power);
      }
    } else {
      OpenStopsBeforePosting(b, e.req, o, p);
    }
  }

  lemma OpenIsUndisturbed(b: Books, req: Request, o: Opener, p: Power)
    requires RunOpen(b, req, o, p).status == Fine
    ensures RunOpen(b, req, o, Unlimited) == RunOpen(b, req, o, p).(power := Unlimited)
  {
    hide Post;
  }

  lemma OpenStopsBeforePosting(b: Books, req: Request, o: Opener, p: Power)
    requires RunOpen(b, req, o, p).status != Fine
    ensures var d := RunOpen(b, req, o, p).books; d == b || d == b.(accounts := b.accounts + {External(req.org)})
  {
    hide Post;
  }

  lemma ActionResumes(b: Books, act: Action, p: Power)
    requires ValidBooks(b) && ShapedAction(act)
    ensures RunAction(RunAction(b, act, p).books, act, Unlimited) == RunAction(b, act, Unlimited)
  {
    match act
    case Register(a) =>
      var got := RunAction(b, act, p).books;
      if got != b {
        assert got.(accounts := got.accounts + {a}) == got;
      }
    case Settle(e) => SettleResumes(b, e, p);
    case Halt(_) =>
  }

  /** Whatever is left behind, doing all of it again gives the same books and the
      same verdict as never having been interrupted. */
  lemma {:induction false} RunResumes(b: Books, acts: seq<Action>, p: Power)
    requires ValidBooks(b) && ShapedActions(acts)
    ensures RunActions(RunActions(b, acts, p).books, acts, Unlimited) == RunActions(b, acts, Unlimited)
    decreases |acts|
  {
    if acts != [] {
      var r := RunAction(b, acts[0], p);
      ActionResumes(b, acts[0], p);
      if r.status == Fine {
        FinishedIsDone(b, acts[0], p);
        RunActionKeeps(b, acts[0], p);
        RunResumes(r.books, acts[1..], r.power);
        RunActionsKeep(r.books, acts[1..], r.power);
        var got := RunActions(r.books, acts[1..], r.power).books;
        DoneStays(r.books, got, acts[0]);
        DoneMeansNothingToDo(got, acts[0], Unlimited);
      }
    }
  }

  // ----- what stops a process stops every process -----

  lemma OpenStopsAlike(b: Books, req: Request, o: Opener, p: Power)
    requires RunOpen(b, req, o, p).status.Stopped?
    ensures RunOpen(b, req, o, Unlimited).status == RunOpen(b, req, o, p).status
  {
    hide Post;
  }

  lemma ActionStopsAlike(b: Books, act: Action, p: Power)
    requires RunAction(b, act, p).status.Stopped?
    ensures RunAction(b, act, Unlimited).status == RunAction(b, act, p).status
  {
    hide Post, RunOpen;
    if act.Settle? && act.entry.opener.Some? {
      var e := act.entry;
      var ready := RunOpen(b, e.req, e.opener.value, p);
      if ready.status == Fine {
        OpenIsUndisturbed(b, e.req, e.opener.value, p);
      } else if ready.status.Stopped? {
        OpenStopsAlike(b, e.req, e.opener.value, p);
      }
    }
  }

  /** A process that is refused something is refused what an undisturbed one would be. */
  lemma {:induction false} RunStopsAlike(b: Books, acts: seq<Action>, p: Power)
    requires RunActions(b, acts, p).status.Stopped?
    ensures RunActions(b, acts, Unlimited).status == RunActions(b, acts, p).status
    decreases |acts|
  {
    hide RunAction;
    var r := RunAction(b, acts[0], p);
    if r.status == Fine {
      FinishedIsDone(b, acts[0], p);
      RunStopsAlike(r.books, acts[1..], r.power);
    } else {
      ActionStopsAlike(b, acts[0], p);
    }
  }
}
