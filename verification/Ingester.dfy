/**
 The ingester itself, as it runs: a loop over a page of records, each posted movement
 by movement over a connection that may die at any commit. Every method is tied to the
 function that says what it leaves behind.
 */
module Ingester {
  import opened Ledger
  import opened LedgerStore
  import opened Ingestion
  import opened IngestionRuns

  // ----- gluing runs together -----

  lemma RunOne(b: Books, act: Action, p: Power)
    ensures RunActions(b, [act], p) == RunAction(b, act, p)
  {
    hide RunAction;
    assert [act][1..] == [];
    var r := RunAction(b, act, p);
    assert RunActions(r.books, [], r.power) == Run(r.books, r.power, Fine);
  }

  /** The actions of the movements from n on. */
  function WorkFrom(t: Tracking, rec: Record, n: nat): seq<Action>
    requires n <= |rec.movements|
    decreases |rec.movements| - n
  {
    if n == |rec.movements| then [] else MovementActions(t, rec, n) + WorkFrom(t, rec, n + 1)
  }

  lemma {:induction false} WorkSplits(t: Tracking, rec: Record, n: nat)
    requires n <= |rec.movements|
    ensures WorkUpTo(t, rec, n) + WorkFrom(t, rec, n) == Work(t, rec)
    decreases |rec.movements| - n
  {
    hide MovementActions;
    if n == |rec.movements| {
      assert WorkUpTo(t, rec, n) + [] == WorkUpTo(t, rec, n);
    } else {
      WorkSplits(t, rec, n + 1);
      assert WorkUpTo(t, rec, n) + (MovementActions(t, rec, n) + WorkFrom(t, rec, n + 1))
          == WorkUpTo(t, rec, n) + MovementActions(t, rec, n) + WorkFrom(t, rec, n + 1);
    }
  }

  lemma WorkFromStart(t: Tracking, rec: Record)
    ensures WorkFrom(t, rec, 0) == Work(t, rec)
  {
    hide MovementActions;
    WorkSplits(t, rec, 0);
    assert [] + WorkFrom(t, rec, 0) == WorkFrom(t, rec, 0);
  }

  lemma MovementStep(b: Books, t: Tracking, rec: Record, n: nat, p: Power)
    requires n < |rec.movements|
    ensures RunActions(b, WorkFrom(t, rec, n), p) ==
            var r := RunActions(b, MovementActions(t, rec, n), p);
            if r.status != Fine then r else RunActions(r.books, WorkFrom(t, rec, n + 1), r.power)
  {
    hide RunActions, MovementActions;
    RunInTwo(b, MovementActions(t, rec, n), WorkFrom(t, rec, n + 1), p);
  }

  lemma NoMoreWork(b: Books, t: Tracking, rec: Record, p: Power)
    ensures RunActions(b, WorkFrom(t, rec, |rec.movements|), p) == Run(b, p, Fine)
  {
  }

  // ----- the source -----

  /** The position a cursor names: just after the record that carries it. */
  function PositionOf(records: seq<Record>, cursor: string): (i: nat)
    ensures i <= |records|
  {
    if cursor == "" || records == [] then 0
    else if records[|records| - 1].cursor == cursor then |records|
    else PositionOf(records[..|records| - 1], cursor)
  }

  predicate DistinctCursors(records: seq<Record>) {
    && (forall i :: 0 <= i < |records| ==> records[i].cursor != "")
    && (forall i, j :: 0 <= i < j < |records| ==> records[i].cursor != records[j].cursor)
  }

  /** Resuming after a record's cursor is resuming after the record. */
  lemma {:induction false} PositionAfter(records: seq<Record>, i: nat)
    requires DistinctCursors(records) && i < |records|
    ensures PositionOf(records, records[i].cursor) == i + 1
  {
    if i < |records| - 1 {
      var init := records[..|records| - 1];
      PositionAfter(init, i);
      assert init[i] == records[i];
    }
  }

  class Source {
    const name: string
    const records: seq<Record>

    constructor (name: string, records: seq<Record>)
      requires DistinctCursors(records)
      ensures this.name == name && this.records == records
    {
      this.name, this.records := name, records;
    }

    /** The records that follow the one the cursor names, in order and none left out: as
        many as were asked for, or all that are left. No cursor is the beginning. */
    method Fetch(cursor: string, limit: nat) returns (page: seq<Record>)
      ensures page == Page(records, PositionOf(records, cursor), limit)
      ensures cursor == "" ==> page <= records && (|page| == limit || page == records)
      ensures DistinctCursors(records) ==>
                forall i :: 0 <= i < |records| && records[i].cursor == cursor ==>
                              page <= records[i + 1..] && (|page| == limit || page == records[i + 1..])
      ensures |page| <= limit
    {
      var from := PositionOf(records, cursor);
      if DistinctCursors(records) {
        forall i | 0 <= i < |records| && records[i].cursor == cursor ensures from == i + 1 {
          PositionAfter(records, i);
        }
      }
      if from + limit <= |records| {
        page := records[from..from + limit];
      } else {
        page := records[from..];
      }
    }
  }

  // ----- the ingester -----

  class Ingester {
    const store: Store
    var tracked: Tracking
    var cursors: map<string, string>
    var external: map<OrgId, Account>
    var power: Power

    /** The memo of counterparties holds only accounts that are registered. */
    ghost predicate Valid()
      reads this, store
    {
      forall org :: org in external ==>
        org != 0 && external[org] == External(org) && External(org) in store.accounts
    }

    function Cursor(name: string): string
      reads this
    {
      if name in cursors then cursors[name] else ""
    }

    /** What the database holds of one stream. */
    ghost function State(src: Source): Durable
      reads this, store
    {
      Durable(store.View(), tracked, PositionOf(src.records, Cursor(src.name)))
    }

    constructor (store: Store, power: Power)
      ensures this.store == store && this.power == power && external == map[] && Valid()
      ensures tracked == map[] && cursors == map[]
    {
      this.store, this.power, external, tracked, cursors := store, power, map[], map[], map[];
    }

    method ExternalFor(org: OrgId) returns (status: Status)
      requires Valid()
      modifies this`external, this`power, store
      ensures Valid()
      ensures Run(store.View(), power, status) == RunRegister(old(store.View()), External(org), old(power))
    {
      if org in external {
        assert store.View().(accounts := store.accounts + {External(org)}) == store.View();
        return Fine;
      }
      if org == 0 {
        return Stopped(NoSuchOrg);
      }
      if External(org) in store.accounts {
        assert store.View().(accounts := store.accounts + {External(org)}) == store.View();
      } else {
        if Dead(power) {
          return Crashed;
        }
        var id := store.EnsureAccount(org, ExternalKind, "", "external");
        power := Spend(power);
      }
      external := external[org := External(org)];
      return Fine;
    }

    /** A Post whose connection may be lost before the commit. */
    method TryPost(r: Request) returns (status: Status)
      requires Valid()
      modifies this`power, store
      ensures Valid() && store.accounts == old(store.accounts)
      ensures Run(store.View(), power, status) == RunPost(old(store.View()), r, old(power))
    {
      hide Ledger.Valid, ColumnsOk, ApplyRows;
      var txs, balances := store.txs, store.balances;
      var o := store.Post(r);
      if o.Refused? {
        return Stopped(PostRefused(o.why));
      }
      if store.txs == txs {
        return Fine;
      }
      if Dead(power) {
        store.txs, store.balances := txs, balances;
        return Crashed;
      }
      power := Spend(power);
      return Fine;
    }

    method Open(req: Request, o: Opener) returns (status: Status)
      requires Valid()
      modifies this`external, this`power, store
      ensures Valid()
      ensures Run(store.View(), power, status) == RunOpen(old(store.View()), req, o, old(power))
    {
      hide RunPost, RunRegister;
      var held := store.Balance(req.org, o.account, o.asset);
      var short := o.amount - held;
      if short <= 0 {
        return Fine;
      }
      status := ExternalFor(req.org);
      if status != Fine {
        return;
      }
      status := TryPost(OpeningRequest(req, o, short));
    }

    method SettleEntry(e: Entry) returns (status: Status)
      requires Valid()
      modifies this`external, this`power, store
      ensures Valid()
      ensures Run(store.View(), power, status) == RunSettle(old(store.View()), e, old(power))
    {
      StoppedPostIsNoPost(store.View(), e.req, power);
      hide RunPost, RunOpen;
      status := TryPost(e.req);
      if status == Stopped(PostRefused(InsufficientFunds)) && e.opener.Some? {
        status := Open(e.req, e.opener.value);
        if status == Fine {
          status := TryPost(e.req);
        }
      }
    }

    /** One movement: the counterparties it needs, then its entries in order. */
    method ApplyMovement(rec: Record, n: nat) returns (status: Status)
      requires Valid() && n < |rec.movements|
      modifies this`external, this`power, store
      ensures Valid()
      ensures Run(store.View(), power, status)
           == RunActions(old(store.View()), MovementActions(tracked, rec, n), old(power))
    {
      var m := rec.movements[n];
      if m.from !in tracked && m.to !in tracked {
        return Fine;
      }
      if m.unreadable {
        RunOne(store.View(), Halt(Unreadable), power);
        return Stopped(Unreadable);
      }
      if m.amount <= 0 {
        RunOne(store.View(), Halt(NonPositive), power);
        return Stopped(NonPositive);
      }
      var asset := ResolveAsset(m);
      if asset.None? {
        RunOne(store.View(), Halt(BadAsset), power);
        return Stopped(BadAsset);
      }
      RunInTwo(store.View(), CounterpartiesFor(tracked, m), Settlements(EntriesFor(tracked, rec, n, asset.value)), power);
      hide RunActions, EntriesFor, CounterpartiesFor;
      status := Counterparties(m);
      if status == Fine {
        status := SettleAll(EntriesFor(tracked, rec, n, asset.value));
      }
    }

    method Counterparties(m: Movement) returns (status: Status)
      requires Valid()
      modifies this`external, this`power, store
      ensures Valid()
      ensures Run(store.View(), power, status)
           == RunActions(old(store.View()), CounterpartiesFor(tracked, m), old(power))
    {
      status := Fine;
      if m.from in tracked && m.to in tracked && tracked[m.from].org == tracked[m.to].org {
        return;
      }
      ghost var from := if m.from in tracked then [Register(External(tracked[m.from].org))] else [];
      ghost var to := if m.to in tracked then [Register(External(tracked[m.to].org))] else [];
      RunInTwo(store.View(), from, to, power);
      NoActions(store.View(), power);
      if m.from in tracked {
        RunOne(store.View(), from[0], power);
      }
      hide RunActions, RunRegister;
      if m.from in tracked {
        status := ExternalFor(tracked[m.from].org);
        if status != Fine {
          return;
        }
      }
      NoActions(store.View(), power);
      if m.to in tracked {
        RunOne(store.View(), to[0], power);
        status := ExternalFor(tracked[m.to].org);
      }
    }

    method SettleAll(es: seq<Entry>) returns (status: Status)
      requires Valid()
      modifies this`external, this`power, store
      ensures Valid()
      ensures Run(store.View(), power, status) == RunActions(old(store.View()), Settlements(es), old(power))
    {
      status := Fine;
      for i := 0 to |es|
        invariant Valid() && status == Fine
        invariant RunActions(store.View(), Settlements(es)[i..], power)
               == RunActions(old(store.View()), Settlements(es), old(power))
      {
        assert Settlements(es)[i..][0] == Settle(es[i]);
        assert Settlements(es)[i..][1..] == Settlements(es)[i + 1..];
        Unfold(store.View(), Settlements(es)[i..], power);
        hide RunActions, RunSettle;
        status := SettleEntry(es[i]);
        if status != Fine {
          return;
        }
      }
      NoActions(store.View(), power);
    }

    method ApplyClose(rec: Record, src: Source) returns (status: Status)
      requires Valid()
      modifies this`tracked, this`power
      ensures Valid()
      ensures Progress(State(src), power, status) == RunClose(old(State(src)), rec, old(power))
    {
      if rec.closed == "" || rec.closed !in tracked {
        assert AfterClose(tracked, rec) == tracked;
        return Fine;
      }
      assert AfterClose(tracked, rec) != tracked by {
        assert rec.closed !in AfterClose(tracked, rec);
      }
      if Dead(power) {
        return Crashed;
      }
      tracked := tracked - {rec.closed};
      power := Spend(power);
      return Fine;
    }

    method ApplyMovements(rec: Record) returns (status: Status)
      requires Valid()
      modifies this`external, this`power, store
      ensures Valid()
      ensures Run(store.View(), power, status) == RunActions(old(store.View()), Work(tracked, rec), old(power))
    {
      hide *;
      WorkFromStart(tracked, rec);
      ghost var goal := RunActions(store.View(), WorkFrom(tracked, rec, 0), power);
      status := Fine;
      for n := 0 to |rec.movements|
        invariant Valid() && status == Fine
        invariant RunActions(store.View(), WorkFrom(tracked, rec, n), power) == goal
      {
        MovementStep(store.View(), tracked, rec, n, power);
        status := ApplyMovement(rec, n);
        if status != Fine {
          return;
        }
      }
      NoMoreWork(store.View(), tracked, rec, power);
    }

    /** apply: each movement in turn, then the closed address. */
    method ApplyRecord(rec: Record, src: Source) returns (status: Status)
      requires Valid()
      modifies this`external, this`power, this`tracked, store
      ensures Valid()
      ensures State(src) == Apply(old(State(src)), rec, old(power)).state
      ensures power == Apply(old(State(src)), rec, old(power)).power
      ensures status == Apply(old(State(src)), rec, old(power)).status
    {
      hide RunActions, Work, RunClose;
      status := ApplyMovements(rec);
      if status == Fine {
        status := ApplyClose(rec, src);
      }
    }

    /** A record applied, and only then its cursor saved. */
    method ConsumeRecord(rec: Record, src: Source) returns (status: Status)
      requires Valid() && DistinctCursors(src.records)
      requires State(src).cursor < |src.records| && rec == src.records[State(src).cursor]
      modifies this`external, this`power, this`tracked, this`cursors, store
      ensures Valid()
      ensures State(src) == Consume(old(State(src)), rec, old(power)).state
      ensures power == Consume(old(State(src)), rec, old(power)).power
      ensures status == Consume(old(State(src)), rec, old(power)).status
    {
      ApplyKeepsCursor(State(src), rec, power);
      PositionAfter(src.records, State(src).cursor);
      hide Apply, PositionOf, DistinctCursors, Valid;
      status := ApplyRecord(rec, src);
      if status != Fine {
        return;
      }
      if Dead(power) {
        return Crashed;
      }
      cursors := cursors[src.name := rec.cursor];
      power := Spend(power);
    }

    /** Once: a page from the durable cursor, which moves past a record only after the
        record is applied and stops where the first one fails. */
    method Once(src: Source, limit: nat) returns (consumed: nat, status: Status)
      requires Valid() && DistinctCursors(src.records)
      modifies this`external, this`power, this`tracked, this`cursors, store
      ensures Valid()
      ensures Progress(State(src), power, status)
           == IngestionRuns.Once(old(State(src)), src.records, limit, old(power))
      ensures consumed == State(src).cursor - old(State(src)).cursor
    {
      var page := src.Fetch(Cursor(src.name), limit);
      consumed, status := ConsumePage(src, page);
    }

    method ConsumePage(src: Source, page: seq<Record>) returns (consumed: nat, status: Status)
      requires Valid() && DistinctCursors(src.records)
      requires State(src).cursor + |page| <= |src.records|
      requires page == src.records[State(src).cursor..State(src).cursor + |page|]
      modifies this`external, this`power, this`tracked, this`cursors, store
      ensures Valid()
      ensures Progress(State(src), power, status) == ConsumeAll(old(State(src)), page, old(power))
      ensures consumed == State(src).cursor - old(State(src)).cursor
    {
      hide *;
      ghost var goal := ConsumeAll(State(src), page, power);
      ghost var first := State(src).cursor;
      assert page[0..] == page;
      consumed, status := 0, Fine;
      for i := 0 to |page|
        invariant Valid() && status == Fine && consumed == i
        invariant State(src).cursor == first + i
        invariant ConsumeAll(State(src), page[i..], power) == goal
      {
        assert page[i] == src.records[first + i];
        UnfoldPage(State(src), page, i, power);
        ConsumeMovesCursor(State(src), page[i], power);
        status := ConsumeRecord(page[i], src);
        if status != Fine {
          return;
        }
        consumed := consumed + 1;
      }
      NoRecords(State(src), page, power);
    }
  }

  lemma ConsumeMovesCursor(d: Durable, rec: Record, p: Power)
    ensures Consume(d, rec, p).state.cursor == d.cursor + (if Consume(d, rec, p).status == Fine then 1 else 0)
  {
  }

  lemma NoActions(b: Books, p: Power)
    ensures RunActions(b, [], p) == Run(b, p, Fine)
  {
  }

  lemma NoRecords(d: Durable, page: seq<Record>, p: Power)
    ensures ConsumeAll(d, page[|page|..], p) == Progress(d, p, Fine)
  {
  }

  lemma Unfold(b: Books, acts: seq<Action>, p: Power)
    requires acts != []
    ensures RunActions(b, acts, p) ==
            var r := RunAction(b, acts[0], p);
            if r.status != Fine then r else RunActions(r.books, acts[1..], r.power)
  {
  }

  lemma UnfoldPage(d: Durable, page: seq<Record>, i: nat, p: Power)
    requires i < |page|
    ensures ConsumeAll(d, page[i..], p) ==
            var c := Consume(d, page[i], p);
            if c.status != Fine then c else ConsumeAll(c.state, page[i + 1..], c.power)
  {
    hide Consume;
    assert page[i..][0] == page[i] && page[i..][1..] == page[i + 1..];
  }

  lemma ApplyKeepsCursor(d: Durable, rec: Record, p: Power)
    ensures Apply(d, rec, p).state.cursor == d.cursor
  {
  }

  lemma StoppedPostIsNoPost(b: Books, r: Request, p: Power)
    ensures RunPost(b, r, p).status.Stopped? ==> RunPost(b, r, p).books == b && RunPost(b, r, p).power == p
  {
  }
}
