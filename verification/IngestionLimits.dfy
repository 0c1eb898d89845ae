/** Where the guarantees of ingestion end, exactly. */
module IngestionLimits {
  import opened Common
  import opened Ledger
  import opened Ingestion
  import opened CrashSafety
  import opened IngestionRuns
  import opened Keys
  import opened Bookkeeping
  import opened NoWedge
  import opened StreamBooks
  import opened IngestionTheorems
  import Horizon

  /** Of two different requests under one key, at most one is recorded. */
  lemma RecordedOnce(b: Books, r: Request, q: Request)
    requires Recorded(b, r) && Recorded(b, q) && r.org == q.org && r.key == q.key
    ensures r.kind == q.kind
  {
    assert ContentOf(r).kind == r.kind && ContentOf(q).kind == q.kind;
  }

  /** A payment between two accounts of one org, once an end is no longer tracked, is
      asked for again as a deposit or a withdrawal. */
  lemma JoinedMovementChanges(t: Tracking, rec: Record, n: nat) returns (was: Entry, now: Entry)
    requires rec.closed != "" && n < |rec.movements| && JoinsClosed(t, rec.closed, rec.movements[n])
    requires NamesAsset(rec.movements[n]) && rec.movements[n].amount > 0 && !rec.movements[n].unreadable
    ensures Settle(was) in MovementActions(t, rec, n)
    ensures Settle(now) in MovementActions(AfterClose(t, rec), rec, n)
    ensures was.req.org == now.req.org && was.req.key == now.req.key && was.req.kind != now.req.kind
  {
    var m := rec.movements[n];
    var t' := AfterClose(t, rec);
    var s := ResolveAsset(m).value;
    was := SendEntry(rec, n, t[m.from], t[m.to], s, m.amount);
    assert MovementActions(t, rec, n) == [Settle(was)];
    assert "send" != "deposit" && "send" != "withdrawal" by {
      assert |"send"| != |"deposit"| && |"send"| != |"withdrawal"|;
    }
    if m.from == rec.closed {
      now := DepositEntry(rec, n, t[m.to], s, m.amount);
      assert MovementActions(t', rec, n) == [Register(External(t[m.to].org)), Settle(now)];
    } else {
      now := WithdrawalEntry(rec, n, t[m.from], s, m.amount);
      assert MovementActions(t', rec, n) == [Register(External(t[m.from].org)), Settle(now)];
    }
  }

  /** Dying between the closing of an address and the move of the cursor: the record can be
      got through again if and only if none of its movements joins the closed address to
      another watched address of the same org. Otherwise its key comes back with other
      content, at every attempt, and the stream stands still. */
  lemma ClosedReplayIff(b: Books, t: Tracking, rec: Record, p: Power)
    requires ValidBooks(b) && RunActions(b, Work(t, rec), Unlimited).status == Fine
    ensures var done := RunActions(b, Work(t, rec), Unlimited).books;
            CloseSafe(t, rec) ==> RunActions(done, Work(AfterClose(t, rec), rec), p) == Run(done, p, Fine)
    ensures var done := RunActions(b, Work(t, rec), Unlimited).books;
            !CloseSafe(t, rec) ==> RunActions(done, Work(AfterClose(t, rec), rec), p).status != Fine
  {
    var t' := AfterClose(t, rec);
    var acts, again := Work(t, rec), Work(t', rec);
    var done := RunActions(b, acts, Unlimited).books;
    RunActionsKeep(b, acts, Unlimited);
    if CloseSafe(t, rec) {
      ClosedReplayDoesNothing(b, t, rec, p);
    } else if RunActions(done, again, p).status == Fine {
      var n :| 0 <= n < |rec.movements| && JoinsClosed(t, rec.closed, rec.movements[n]);
      FinishedMovementIsReadable(b, t, rec, n);
      hide ValidBooks, RunActions, MovementActions;
      var was, now := JoinedMovementChanges(t, rec, n);
      WorkContains(t, rec, |rec.movements|, n, Settle(was));
      WorkContains(t', rec, |rec.movements|, n, Settle(now));
      var i :| 0 <= i < |acts| && acts[i] == Settle(was);
      var j :| 0 <= j < |again| && again[j] == Settle(now);
      FinishedRunIsDone(b, acts, Unlimited, i);
      FinishedRunIsDone(done, again, p, j);
      RunActionsKeep(done, again, p);
      RecordedLater(done, RunActions(done, again, p).books, was.req);
      RecordedOnce(RunActions(done, again, p).books, was.req, now.req);
      assert false;
    }
  }

  /** From books with nothing posted yet, a readable record that is not close-safe gets
      through the first time and never again. */
  lemma UnsafeCloseWedges(b: Books, t: Tracking, rec: Record, p: Power)
    requires ValidBooks(b) && b.txs == [] && SoundTracking(t) && TracksRegistered(t, b.accounts)
    requires ReadableRecord(t, rec) && Volume(Work(t, rec)) <= MAX_INT64 && !CloseSafe(t, rec)
    ensures var first := RunActions(b, Work(t, rec), Unlimited);
            && first.status == Fine
            && RunActions(first.books, Work(AfterClose(t, rec), rec), p).status != Fine
  {
    var acts := Work(t, rec);
    WorkIsPlain(t, rec, |rec.movements|);
    WorkIsPrepared(b.accounts, t, rec, |rec.movements|);
    forall a: Account, s: Asset ensures Held(b.balances, a, s) == 0 {
      assert Held(b.balances, a, s) == EntrySum(b.txs, a, s);
    }
    assert Within(b.balances, 0);
    assert NewSlots(b, acts);
    hide ValidBooks, RunActions, Prepared, PlainActions, DistinctSlots, WorkUpTo, CloseSafe;
    ListFits(b, acts, 0);
    ClosedReplayIff(b, t, rec, p);
  }

  /** A wallet that pays another watched account of its org and is merged away, in one record. */
  predicate PaysAndCloses(t: Tracking, rec: Record) {
    && |rec.movements| == 1 && ReadableRecord(t, rec) && rec.closed != ""
    && rec.closed == rec.movements[0].from && JoinsClosed(t, rec.closed, rec.movements[0])
  }

  lemma PaysAndClosesIsOneSend(t: Tracking, rec: Record)
    requires SoundTracking(t) && PaysAndCloses(t, rec)
    ensures !CloseSafe(t, rec) && Volume(Work(t, rec)) == rec.movements[0].amount
  {
    var m := rec.movements[0];
    var e := SendEntry(rec, 0, t[m.from], t[m.to], ResolveAsset(m).value, m.amount);
    assert WorkUpTo(t, rec, 0) == [];
    assert MovementActions(t, rec, 0) == [Settle(e)];
    assert Work(t, rec) == [] + [Settle(e)];
    hide WorkUpTo, MovementActions;
    assert [Settle(e)][1..] == [];
    assert Volume([]) == 0;
    assert AmountOf(e) == m.amount;
  }

  /** Every such record, from books with nothing posted yet. */
  lemma PayAndCloseWedges(b: Books, t: Tracking, rec: Record, p: Power)
    requires ValidBooks(b) && b.txs == [] && SoundTracking(t) && TracksRegistered(t, b.accounts)
    requires PaysAndCloses(t, rec)
    ensures var first := RunActions(b, Work(t, rec), Unlimited);
            && first.status == Fine
            && RunActions(first.books, Work(AfterClose(t, rec), rec), p).status != Fine
  {
    PaysAndClosesIsOneSend(t, rec);
    assert ReadableRecord(t, rec) && rec.movements[0].amount <= MAX_INT64;
    hide ValidBooks, SoundTracking, TracksRegistered, ReadableRecord, CloseSafe, RunActions, Volume, WorkUpTo;
    UnsafeCloseWedges(b, t, rec, p);
  }

  /** And there are such records and books. */
  lemma UnsafeCloseExists()
    ensures var wallet, treasury := Member(1, "m"), Treasury(1, "ops");
            var b := Books({wallet, treasury}, [], map[]);
            var t := map["GA" := Tracked(1, wallet), "GB" := Tracked(1, treasury)];
            var m := Movement("GA", "GB", "native", "", "", 5, false);
            && ValidBooks(b) && SoundTracking(t) && TracksRegistered(t, b.accounts)
            && PaysAndCloses(t, Record("c", "horizon:op:" + "1", "", At(0), [m], "GA"))
  {
    var t := map["GA" := Tracked(1, Member(1, "m")), "GB" := Tracked(1, Treasury(1, "ops"))];
    var m := Movement("GA", "GB", "native", "", "", 5, false);
    Horizon.PrefixedId("1");
    hide Fields;
    assert "GA"[1] != "GB"[1];
    assert Readable(t, m);
  }
}
