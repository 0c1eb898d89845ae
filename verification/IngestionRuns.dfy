/**
 Whole runs of the ingester: any number of calls of Once over one stream, each of
 which may die at any commit, against the run in which nothing ever dies.
 */
module IngestionRuns {
  import opened Common
  import opened Ledger
  import opened Ingestion
  import opened CrashSafety

  /** What survives a crash. The cursor is the number of records already consumed. */
  datatype Durable = Durable(books: Books, tracked: Tracking, cursor: nat)

  datatype Progress = Progress(state: Durable, power: Power, status: Status)

  // ----- one record -----

  function RunClose(d: Durable, rec: Record, p: Power): Progress {
    var t := AfterClose(d.tracked, rec);
    if t == d.tracked then Progress(d, p, Fine)
    else if Dead(p) then Progress(d, p, Crashed)
    else Progress(d.(tracked := t), Spend(p), Fine)
  }

  /** apply: every movement in order, then the closed address. */
  function Apply(d: Durable, rec: Record, p: Power): Progress {
    var r := RunActions(d.books, Work(d.tracked, rec), p);
    if r.status != Fine then Progress(d.(books := r.books), r.power, r.status)
    else RunClose(d.(books := r.books), rec, r.power)
  }

  /** A record applied, and only then the cursor moved past it. */
  function Consume(d: Durable, rec: Record, p: Power): Progress {
    var a := Apply(d, rec, p);
    if a.status != Fine then a
    else if Dead(a.power) then Progress(a.state, a.power, Crashed)
    else Progress(a.state.(cursor := a.state.cursor + 1), Spend(a.power), Fine)
  }

  // ----- pages and calls -----

  function ConsumeAll(d: Durable, recs: seq<Record>, p: Power): (r: Progress)
    ensures d.cursor <= r.state.cursor <= d.cursor + |recs|
    ensures r.status == Fine ==> r.state.cursor == d.cursor + |recs|
    decreases |recs|
  {
    if recs == [] then Progress(d, p, Fine) else
      var c := Consume(d, recs[0], p);
      if c.status != Fine then c else ConsumeAll(c.state, recs[1..], c.power)
  }

  function Page(stream: seq<Record>, cursor: nat, limit: nat): seq<Record>
    requires cursor <= |stream|
  {
    if cursor + limit <= |stream| then stream[cursor..cursor + limit] else stream[cursor..]
  }

  function Once(d: Durable, stream: seq<Record>, limit: nat, p: Power): (r: Progress)
    requires d.cursor <= |stream|
    ensures d.cursor <= r.state.cursor <= |stream|
  {
    ConsumeAll(d, Page(stream, d.cursor, limit), p)
  }

  /** One call of Once: how long a page it got, and when its process dies. */
  datatype Call = Call(limit: nat, power: Power)

  function RunCalls(d: Durable, stream: seq<Record>, calls: seq<Call>): (r: Durable)
    requires d.cursor <= |stream|
    ensures r.cursor <= |stream|
  {
    if calls == [] then d else
      var last := calls[|calls| - 1];
      Once(RunCalls(d, stream, calls[..|calls| - 1]), stream, last.limit, last.power).state
  }

  // ----- the undisturbed run -----

  /** Where a process that never dies stands after k records; None when one of them stops it. */
  function Undisturbed(d: Durable, stream: seq<Record>, k: nat): Option<Durable>
    requires k <= |stream|
  {
    if k == 0 then Some(d) else
      match Undisturbed(d, stream, k - 1)
      case None => None
      case Some(c) =>
        var r := Consume(c, stream[k - 1], Unlimited);
        if r.status == Fine then Some(r.state) else None
  }

  function TrackedAfter(t: Tracking, recs: seq<Record>): Tracking {
    if recs == [] then t else AfterClose(TrackedAfter(t, recs[..|recs| - 1]), recs[|recs| - 1])
  }

  // ----- replaying a record that closed an address -----

  /** m joins the closed address to another tracked address of the same org. */
  predicate JoinsClosed(t: Tracking, closed: string, m: Movement) {
    && closed in t
    && ((m.from == closed && m.to != closed && m.to in t && t[m.to].org == t[closed].org)
        || (m.to == closed && m.from != closed && m.from in t && t[m.from].org == t[closed].org))
  }

  predicate CloseSafe(t: Tracking, rec: Record) {
    rec.closed == "" ||
    forall n :: 0 <= n < |rec.movements| ==> !JoinsClosed(t, rec.closed, rec.movements[n])
  }

  /** Every record of the stream is close-safe for the addresses tracked when it comes. */
  predicate CloseSafeStream(t: Tracking, stream: seq<Record>) {
    forall k :: 0 <= k < |stream| ==> CloseSafe(TrackedAfter(t, stream[..k]), stream[k])
  }

  lemma {:induction false} TrackingStaysSound(t: Tracking, recs: seq<Record>)
    requires SoundTracking(t)
    ensures SoundTracking(TrackedAfter(t, recs))
  {
    if recs != [] {
      TrackingStaysSound(t, recs[..|recs| - 1]);
    }
  }

  /** After the address is gone, the movement asks only for what was already asked. */
  lemma FewerActionsAfterClose(t: Tracking, rec: Record, n: nat, act: Action)
    requires rec.closed != "" && n < |rec.movements| && !JoinsClosed(t, rec.closed, rec.movements[n])
    requires act in MovementActions(AfterClose(t, rec), rec, n)
    ensures act in MovementActions(t, rec, n)
  {
    var m := rec.movements[n];
    var t' := AfterClose(t, rec);
    var s := ResolveAsset(m);
    if !m.unreadable && m.amount > 0 && s.Some? {
      var es, es' := EntriesFor(t, rec, n, s.value), EntriesFor(t', rec, n, s.value);
      if act in Settlements(es') {
        var i :| 0 <= i < |es'| && act == Settle(es'[i]);
        assert es'[i] in es;
        var j :| 0 <= j < |es| && es[j] == es'[i];
        assert Settlements(es)[j] == act;
      }
    }
  }

  lemma {:induction false} WorkContains(t: Tracking, rec: Record, k: nat, n: nat, act: Action)
    requires n < k <= |rec.movements| && act in MovementActions(t, rec, n)
    ensures act in WorkUpTo(t, rec, k)
  {
    hide MovementActions;
    if n < k - 1 {
      WorkContains(t, rec, k - 1, n, act);
    }
  }

  lemma {:induction false} WorkComesFrom(t: Tracking, rec: Record, k: nat, act: Action) returns (n: nat)
    requires k <= |rec.movements| && act in WorkUpTo(t, rec, k)
    ensures n < k && act in MovementActions(t, rec, n)
  {
    hide MovementActions;
    if act in MovementActions(t, rec, k - 1) {
      n := k - 1;
    } else {
      n := WorkComesFrom(t, rec, k - 1, act);
    }
  }

  /** Dying after the address is closed and before the cursor moves: the record comes
      round again under a smaller tracking map, and does nothing. */
  lemma ClosedReplayDoesNothing(b: Books, t: Tracking, rec: Record, p: Power)
    requires ValidBooks(b) && CloseSafe(t, rec)
    requires RunActions(b, Work(t, rec), Unlimited).status == Fine
    ensures var done := RunActions(b, Work(t, rec), Unlimited).books;
            RunActions(done, Work(AfterClose(t, rec), rec), p) == Run(done, p, Fine)
  {
    var acts := Work(t, rec);
    var t' := AfterClose(t, rec);
    var done := RunActions(b, acts, Unlimited).books;
    forall i | 0 <= i < |Work(t', rec)| ensures Done(done, Work(t', rec)[i]) {
      var act := Work(t', rec)[i];
      assert act in Work(t', rec);
      var n := WorkComesFrom(t', rec, |rec.movements|, act);
      if rec.closed != "" {
        FewerActionsAfterClose(t, rec, n, act);
      }
      WorkContains(t, rec, |rec.movements|, n, act);
      var j :| 0 <= j < |acts| && acts[j] == act;
      FinishedRunIsDone(b, acts, Unlimited, j);
    }
    AllDoneMeansNothingToDo(done, Work(t', rec), p);
  }

  // ----- the invariant of every run -----

  /** d is what some interrupted attempt at rec left behind, starting from c. */
  ghost predicate Midway(c: Durable, rec: Record, d: Durable) {
    var target := RunActions(c.books, Work(c.tracked, rec), Unlimited);
    && d.cursor == c.cursor
    && Later(c.books, d.books)
    && (|| (d.tracked == c.tracked && RunActions(d.books, Work(c.tracked, rec), Unlimited) == target)
        || (target.status == Fine && d.tracked == AfterClose(c.tracked, rec) && d.books == target.books))
  }

  lemma StartIsMidway(c: Durable, rec: Record)
    requires ValidBooks(c.books)
    ensures Midway(c, rec, c)
  {
  }

  /** One more attempt at the same record, dying anywhere or not at all. */
  lemma AttemptStaysOnCourse(c: Durable, rec: Record, d: Durable, p: Power)
    requires ValidBooks(c.books) && SoundTracking(c.tracked) && CloseSafe(c.tracked, rec)
    requires Midway(c, rec, d)
    ensures var got := Consume(d, rec, p);
            if got.status == Fine
            then Consume(c, rec, Unlimited) == Progress(got.state, Unlimited, Fine)
            else Midway(c, rec, got.state)
  {
    hide ValidBooks, RunActions, WorkUpTo, SoundTracking, CloseSafe;
    var acts := Work(c.tracked, rec);
    var target := RunActions(c.books, acts, Unlimited);
    var t' := AfterClose(c.tracked, rec);
    if d.tracked == c.tracked && RunActions(d.books, acts, Unlimited) == target {
      WorkIsShaped(c.tracked, rec, |rec.movements|);
      var r := RunActions(d.books, acts, p);
      RunResumes(d.books, acts, p);
      RunActionsKeep(d.books, acts, p);
      if r.status == Fine {
        FinishedRunIsUndisturbed(d.books, acts, p);
        RunActionsKeep(c.books, acts, Unlimited);
      }
    } else {
      PowerStays(c.books, acts);
      ClosedReplayDoesNothing(c.books, c.tracked, rec, p);
      RunActionsKeep(c.books, acts, Unlimited);
      assert AfterClose(t', rec) == t';
      assert Apply(d, rec, p) == Progress(d, p, Fine);
    }
  }

  /** Every state of every run: the undisturbed run gets as far, and this one stands
      where it stands or somewhere in its next record. */
  ghost predicate OnCourse(start: Durable, stream: seq<Record>, d: Durable) {
    && d.cursor <= |stream|
    && Undisturbed(start, stream, d.cursor).Some?
    && var c := Undisturbed(start, stream, d.cursor).value;
       if d.cursor == |stream| then d == c else Midway(c, stream[d.cursor], d)
  }

  lemma {:induction false} UndisturbedIsSound(start: Durable, stream: seq<Record>, k: nat)
    requires start.cursor == 0 && ValidBooks(start.books) && k <= |stream|
    requires Undisturbed(start, stream, k).Some?
    ensures var c := Undisturbed(start, stream, k).value;
            c.cursor == k && ValidBooks(c.books) && c.tracked == TrackedAfter(start.tracked, stream[..k])
  {
    hide ValidBooks, RunActions, Work;
    if k > 0 {
      UndisturbedIsSound(start, stream, k - 1);
      var c := Undisturbed(start, stream, k - 1).value;
      RunActionsKeep(c.books, Work(c.tracked, stream[k - 1]), Unlimited);
      assert stream[..k][..k - 1] == stream[..k - 1];
    }
  }

  /** Sound beginnings: valid books, sound tracking, and a stream safe to replay. */
  ghost predicate Begins(start: Durable, stream: seq<Record>) {
    && start.cursor == 0 && ValidBooks(start.books) && SoundTracking(start.tracked)
    && CloseSafeStream(start.tracked, stream)
  }

  lemma StartIsOnCourse(start: Durable, stream: seq<Record>)
    requires Begins(start, stream)
    ensures OnCourse(start, stream, start)
  {
    if stream != [] {
      StartIsMidway(start, stream[0]);
    }
  }

  lemma RecordStaysOnCourse(start: Durable, stream: seq<Record>, d: Durable, p: Power)
    requires Begins(start, stream) && OnCourse(start, stream, d) && d.cursor < |stream|
    ensures var got := Consume(d, stream[d.cursor], p);
            && OnCourse(start, stream, got.state)
            && (got.status == Fine ==> got.state.cursor == d.cursor + 1
                                       && Undisturbed(start, stream, d.cursor + 1) == Some(got.state))
  {
    var k := d.cursor;
    var c := Undisturbed(start, stream, k).value;
    UndisturbedIsSound(start, stream, k);
    TrackingStaysSound(start.tracked, stream[..k]);
    AttemptStaysOnCourse(c, stream[k], d, p);
    var got := Consume(d, stream[k], p);
    if got.status == Fine {
      assert Undisturbed(start, stream, k + 1) == Some(got.state);
      UndisturbedIsSound(start, stream, k + 1);
      if k + 1 < |stream| {
        StartIsMidway(got.state, stream[k + 1]);
      }
    }
  }

  lemma {:induction false} PageStaysOnCourse(
      start: Durable, stream: seq<Record>, d: Durable, recs: seq<Record>, p: Power)
    requires Begins(start, stream) && OnCourse(start, stream, d)
    requires d.cursor + |recs| <= |stream| && recs == stream[d.cursor..d.cursor + |recs|]
    ensures OnCourse(start, stream, ConsumeAll(d, recs, p).state)
    decreases |recs|
  {
    hide OnCourse, Begins, Consume, Undisturbed;
    if recs != [] {
      assert recs[0] == stream[d.cursor];
      RecordStaysOnCourse(start, stream, d, p);
      var got := Consume(d, recs[0], p);
      if got.status == Fine {
        PageStaysOnCourse(start, stream, got.state, recs[1..], got.power);
      }
    }
  }

  lemma OnceStaysOnCourse(start: Durable, stream: seq<Record>, d: Durable, call: Call)
    requires Begins(start, stream) && OnCourse(start, stream, d)
    ensures OnCourse(start, stream, Once(d, stream, call.limit, call.power).state)
  {
    assert d.cursor <= |stream|;
    hide OnCourse, Begins, ConsumeAll;
    PageStaysOnCourse(start, stream, d, Page(stream, d.cursor, call.limit), call.power);
  }

  lemma {:induction false} RunsStayOnCourse(start: Durable, stream: seq<Record>, calls: seq<Call>)
    requires Begins(start, stream)
    ensures OnCourse(start, stream, RunCalls(start, stream, calls))
  {
    assert start.cursor == 0;
    hide OnCourse, Begins, Once;
    if calls == [] {
      StartIsOnCourse(start, stream);
    } else {
      var before := calls[..|calls| - 1];
      RunsStayOnCourse(start, stream, before);
      var d := RunCalls(start, stream, before);
      OnceStaysOnCourse(start, stream, d, calls[|calls| - 1]);
    }
  }

  // ----- the theorems -----

  /** Exactly once. For every stream and every sequence of calls with deaths wherever
      they may fall: the log holds everything the undisturbed run has logged up to the
      cursor, in the same order and nothing in between, and beyond it at most a part
      of what the undisturbed run logs for the one record in hand. Once the stream is
      consumed the two ledgers are the same ledger. */
  lemma ExactlyOnce(start: Durable, stream: seq<Record>, calls: seq<Call>)
    requires Begins(start, stream)
    ensures var d := RunCalls(start, stream, calls);
            var k := d.cursor;
            && ValidBooks(d.books)
            && Undisturbed(start, stream, k).Some?
            && Undisturbed(start, stream, k).value.books.txs <= d.books.txs
            && (k == |stream| ==> Undisturbed(start, stream, k) == Some(d))
            && (k < |stream| && Undisturbed(start, stream, k + 1).Some? ==>
                  d.books.txs <= Undisturbed(start, stream, k + 1).value.books.txs)
  {
    hide RunActions, Work, ValidBooks, RunCalls;
    RunsStayOnCourse(start, stream, calls);
    var d := RunCalls(start, stream, calls);
    var k := d.cursor;
    UndisturbedIsSound(start, stream, k);
    if k < |stream| && Undisturbed(start, stream, k + 1).Some? {
      var c := Undisturbed(start, stream, k).value;
      RunActionsKeep(d.books, Work(c.tracked, stream[k]), Unlimited);
    }
  }

  /** Recovery. From wherever a run has got to, one undisturbed call over the rest of
      the stream finishes, if the undisturbed run does, in the same state. */
  lemma Recovers(start: Durable, stream: seq<Record>, calls: seq<Call>)
    requires Begins(start, stream)
    requires Undisturbed(start, stream, |stream|).Some?
    ensures Undisturbed(start, stream, |stream|) ==
            Some(Once(RunCalls(start, stream, calls), stream, |stream|, Unlimited).state)
  {
    RunsStayOnCourse(start, stream, calls);
    var d := RunCalls(start, stream, calls);
    assert Page(stream, d.cursor, |stream|) == stream[d.cursor..];
    FinishesFrom(start, stream, d, stream[d.cursor..]);
  }

  lemma {:induction false} UndisturbedBefore(start: Durable, stream: seq<Record>, j: nat, k: nat)
    requires j <= k <= |stream| && Undisturbed(start, stream, k).Some?
    ensures Undisturbed(start, stream, j).Some?
    decreases k
  {
    if j < k {
      UndisturbedBefore(start, stream, j, k - 1);
    }
  }

  lemma {:induction false} FinishesFrom(start: Durable, stream: seq<Record>, d: Durable, recs: seq<Record>)
    requires Begins(start, stream)
    requires OnCourse(start, stream, d) && recs == stream[d.cursor..]
    requires Undisturbed(start, stream, |stream|).Some?
    ensures Undisturbed(start, stream, |stream|) == Some(ConsumeAll(d, recs, Unlimited).state)
    decreases |recs|
  {
    hide Begins, Midway, Consume;
    if recs != [] {
      assert recs[0] == stream[d.cursor];
      RecordStaysOnCourse(start, stream, d, Unlimited);
      RecordFinishes(start, stream, d);
      var got := Consume(d, recs[0], Unlimited);
      FinishesFrom(start, stream, got.state, recs[1..]);
    }
  }

  lemma RecordFinishes(start: Durable, stream: seq<Record>, d: Durable)
    requires Begins(start, stream) && OnCourse(start, stream, d) && d.cursor < |stream|
    requires Undisturbed(start, stream, |stream|).Some?
    ensures Consume(d, stream[d.cursor], Unlimited).status == Fine
    ensures Consume(d, stream[d.cursor], Unlimited).power == Unlimited
  {
    var k := d.cursor;
    var c := Undisturbed(start, stream, k).value;
    UndisturbedIsSound(start, stream, k);
    UndisturbedBefore(start, stream, k + 1, |stream|);
    MidwayFinishes(c, stream[k], d);
  }

  lemma MidwayFinishes(c: Durable, rec: Record, d: Durable)
    requires ValidBooks(c.books) && CloseSafe(c.tracked, rec) && Midway(c, rec, d)
    requires Consume(c, rec, Unlimited).status == Fine
    ensures Consume(d, rec, Unlimited).status == Fine && Consume(d, rec, Unlimited).power == Unlimited
  {
    PowerStays(d.books, Work(d.tracked, rec));
    if !(d.tracked == c.tracked && RunActions(d.books, Work(c.tracked, rec), Unlimited)
                                   == RunActions(c.books, Work(c.tracked, rec), Unlimited)) {
      ClosedReplayDoesNothing(c.books, c.tracked, rec, Unlimited);
    }
  }
}
