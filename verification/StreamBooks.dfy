/**
 The books of one stream, in closed form: which transactions they hold, what every
 account was opened with and holds, and that nothing along the way gets stuck.
 */
module StreamBooks {
  import opened Common
  import opened Ledger
  import opened Ingestion
  import opened IngestionRuns
  import opened Keys
  import opened Bookkeeping
  import opened NoWedge

  // ----- the stream as one list of actions -----

  function AllWork(t: Tracking, recs: seq<Record>): seq<Action> {
    if recs == [] then [] else
      var init := recs[..|recs| - 1];
      AllWork(t, init) + Work(TrackedAfter(t, init), recs[|recs| - 1])
  }

  lemma {:induction false} AllWorkGrows(t: Tracking, stream: seq<Record>, k: nat)
    requires k <= |stream|
    ensures AllWork(t, stream[..k]) <= AllWork(t, stream)
    decreases |stream|
  {
    hide WorkUpTo;
    if k < |stream| {
      var init := stream[..|stream| - 1];
      AllWorkGrows(t, init, k);
      assert init[..k] == stream[..k];
    } else {
      assert stream[..k] == stream;
    }
  }

  /** The undisturbed run of k records is one run of all their actions. */
  lemma {:induction false} UndisturbedIsOneRun(start: Durable, stream: seq<Record>, k: nat)
    requires start.cursor == 0 && ValidBooks(start.books) && k <= |stream|
    ensures var r := RunActions(start.books, AllWork(start.tracked, stream[..k]), Unlimited);
            && (r.status == Fine <==> Undisturbed(start, stream, k).Some?)
            && (r.status == Fine ==> Undisturbed(start, stream, k).value.books == r.books)
  {
    hide ValidBooks, RunActions, Work;
    if k == 0 {
      RunNothing(start.books);
    } else {
      UndisturbedIsOneRun(start, stream, k - 1);
      var recs := stream[..k];
      assert recs[..|recs| - 1] == stream[..k - 1];
      var before := AllWork(start.tracked, stream[..k - 1]);
      var t := TrackedAfter(start.tracked, stream[..k - 1]);
      RunInTwo(start.books, before, Work(t, stream[k - 1]), Unlimited);
      PowerStays(start.books, before);
      if Undisturbed(start, stream, k - 1).Some? {
        UndisturbedIsSound(start, stream, k - 1);
        var c := Undisturbed(start, stream, k - 1).value;
        PowerStays(c.books, Work(t, stream[k - 1]));
      }
    }
  }

  lemma RunNothing(b: Books)
    ensures RunActions(b, [], Unlimited) == Run(b, Unlimited, Fine)
  {
  }

  // ----- well-formed streams -----

  /** What both sources guarantee of a record's identity. */
  predicate WellFormed(rec: Record) {
    ChainId(rec.id) && rec.at.At? && (rec.hash == "" || IsHash(rec.hash))
  }

  predicate Concerns(t: Tracking, m: Movement) {
    m.from in t || m.to in t
  }

  /** Movements of watched addresses say how much of what. Others need say nothing. */
  predicate Readable(t: Tracking, m: Movement) {
    Concerns(t, m) ==> !m.unreadable && 0 < m.amount <= MAX_INT64 && NamesAsset(m)
  }

  predicate ReadableRecord(t: Tracking, rec: Record) {
    WellFormed(rec) && forall n :: 0 <= n < |rec.movements| ==> Readable(t, rec.movements[n])
  }

  predicate ReadableStream(t: Tracking, stream: seq<Record>) {
    && (forall k :: 0 <= k < |stream| ==> ReadableRecord(TrackedAfter(t, stream[..k]), stream[k]))
    && (forall j, k :: 0 <= j < k < |stream| ==> stream[j].id != stream[k].id)
  }

  /** Tracked accounts exist, in orgs that exist. */
  predicate TracksRegistered(t: Tracking, accounts: set<Account>) {
    forall a :: a in t ==> t[a].org != 0 && t[a].account in accounts
  }

  // ----- slots of a stream -----

  predicate SlotsApart(xs: seq<Action>, ys: seq<Action>) {
    forall i, j :: 0 <= i < |xs| && 0 <= j < |ys| && xs[i].Settle? && ys[j].Settle? ==>
      SlotOf(xs[i].entry.req) != SlotOf(ys[j].entry.req)
  }

  lemma DistinctConcat(xs: seq<Action>, ys: seq<Action>)
    requires DistinctSlots(xs) && DistinctSlots(ys) && SlotsApart(xs, ys)
    ensures DistinctSlots(xs + ys)
  {
    hide SlotOf;
    var zs := xs + ys;
    forall i, j | 0 <= i < j < |zs| && zs[i].Settle? && zs[j].Settle?
      ensures SlotOf(zs[i].entry.req) != SlotOf(zs[j].entry.req)
    {
      if j < |xs| {
        assert zs[i] == xs[i] && zs[j] == xs[j];
      } else if i >= |xs| {
        assert zs[i] == ys[i - |xs|] && zs[j] == ys[j - |xs|];
      } else {
        assert zs[i] == xs[i] && zs[j] == ys[j - |xs|];
      }
    }
  }

  /** Every settlement of a movement carries the movement's key. */
  lemma MovementKeyed(t: Tracking, rec: Record, n: nat, act: Action)
    requires n < |rec.movements| && act in MovementActions(t, rec, n) && act.Settle?
    ensures act.entry.req.key == MovementKey(rec, n)
  {
  }

  lemma MovementIsPlain(t: Tracking, rec: Record, n: nat)
    requires n < |rec.movements| && SoundTracking(t) && ChainId(rec.id)
    ensures PlainActions(MovementActions(t, rec, n)) && DistinctSlots(MovementActions(t, rec, n))
  {
    EntriesArePlain(t, rec, n);
    MovementSlotsDiffer(t, rec, n);
  }

  lemma EntriesArePlain(t: Tracking, rec: Record, n: nat)
    requires n < |rec.movements| && SoundTracking(t) && ChainId(rec.id)
    ensures PlainActions(MovementActions(t, rec, n))
  {
    var acts := MovementActions(t, rec, n);
    MovementsAreShaped(t, rec, n);
    forall i | 0 <= i < |acts| && acts[i].Settle? ensures acts[i].entry.req.kind != "opening" {
      assert acts[i].entry.req.kind in {"send", "withdrawal", "deposit"};
    }
    hide MovementActions, Shaped, Owner, MovementKey, OpeningKey;
    forall i | 0 <= i < |acts| && acts[i].Settle? ensures Plain(acts[i].entry) {
      assert ShapedAction(acts[i]);
      MovementKeyed(t, rec, n, acts[i]);
      forall short: int ensures Owner(OpeningKey(acts[i].entry.req.key, short)) == Owner(acts[i].entry.req.key) {
        OwnerOfKeys(rec, n, short);
      }
    }
  }

  /** Entries of one movement are in different orgs. */
  lemma MovementSlotsDiffer(t: Tracking, rec: Record, n: nat)
    requires n < |rec.movements|
    ensures DistinctSlots(MovementActions(t, rec, n))
  {
    hide Owner;
  }

  lemma {:induction false} WorkKeyed(t: Tracking, rec: Record, n: nat, act: Action) returns (m: nat)
    requires n <= |rec.movements| && act in WorkUpTo(t, rec, n) && act.Settle?
    ensures m < n && act.entry.req.key == MovementKey(rec, m)
  {
    hide MovementActions, MovementKey;
    m := WorkComesFrom(t, rec, n, act);
    MovementKeyed(t, rec, m, act);
  }

  lemma {:induction false} WorkIsPlain(t: Tracking, rec: Record, n: nat)
    requires n <= |rec.movements| && SoundTracking(t) && ChainId(rec.id)
    ensures PlainActions(WorkUpTo(t, rec, n)) && DistinctSlots(WorkUpTo(t, rec, n))
  {
    hide MovementActions, MovementKey, Plain, SoundTracking, ChainId;
    if n > 0 {
      WorkIsPlain(t, rec, n - 1);
      MovementIsPlain(t, rec, n - 1);
      var xs, ys := WorkUpTo(t, rec, n - 1), MovementActions(t, rec, n - 1);
      forall i, j | 0 <= i < |xs| && 0 <= j < |ys| && xs[i].Settle? && ys[j].Settle?
        ensures SlotOf(xs[i].entry.req) != SlotOf(ys[j].entry.req)
      {
        assert xs[i] in xs && ys[j] in ys;
        var m := WorkKeyed(t, rec, n - 1, xs[i]);
        MovementKeyed(t, rec, n - 1, ys[j]);
        OwnersDiffer(rec, m, rec, n - 1);
      }
      DistinctConcat(xs, ys);
    }
  }

  lemma {:induction false} AllWorkKeyed(t: Tracking, recs: seq<Record>, act: Action) returns (k: nat, m: nat)
    requires act in AllWork(t, recs) && act.Settle?
    ensures k < |recs| && act.entry.req.key == MovementKey(recs[k], m)
  {
    hide WorkUpTo, MovementKey;
    var init, last := recs[..|recs| - 1], recs[|recs| - 1];
    if act in Work(TrackedAfter(t, init), last) {
      k := |recs| - 1;
      m := WorkKeyed(TrackedAfter(t, init), last, |last.movements|, act);
    } else {
      k, m := AllWorkKeyed(t, init, act);
    }
  }

  lemma {:induction false} AllWorkIsPlain(t: Tracking, recs: seq<Record>)
    requires SoundTracking(t) && ReadableStream(t, recs)
    ensures PlainActions(AllWork(t, recs)) && DistinctSlots(AllWork(t, recs))
  {
    if recs != [] {
      var init, last := recs[..|recs| - 1], recs[|recs| - 1];
      ReadablePrefix(t, recs);
      AllWorkIsPlain(t, init);
      TrackingStaysSound(t, init);
      var xs, ys := AllWork(t, init), Work(TrackedAfter(t, init), last);
      WorkIsPlain(TrackedAfter(t, init), last, |last.movements|);
      hide WorkUpTo, MovementKey, Plain, SoundTracking;
      forall i, j | 0 <= i < |xs| && 0 <= j < |ys| && xs[i].Settle? && ys[j].Settle?
        ensures SlotOf(xs[i].entry.req) != SlotOf(ys[j].entry.req)
      {
        assert xs[i] in xs && ys[j] in ys;
        var k, m := AllWorkKeyed(t, init, xs[i]);
        var n := WorkKeyed(TrackedAfter(t, init), last, |last.movements|, ys[j]);
        assert init[k] == recs[k] && recs[k].id != last.id;
        assert WellFormed(recs[k]) && WellFormed(last) by {
          assert ReadableRecord(TrackedAfter(t, recs[..k]), recs[k]);
          assert ReadableRecord(TrackedAfter(t, recs[..|recs| - 1]), recs[|recs| - 1]);
        }
        OwnersDiffer(recs[k], m, last, n);
      }
      DistinctConcat(xs, ys);
    }
  }

  lemma ReadablePrefix(t: Tracking, recs: seq<Record>)
    requires ReadableStream(t, recs) && recs != []
    ensures var init := recs[..|recs| - 1];
            && ReadableStream(t, init)
            && ReadableRecord(TrackedAfter(t, init), recs[|recs| - 1])
  {
    hide ReadableRecord;
    var init := recs[..|recs| - 1];
    forall k | 0 <= k < |init| ensures ReadableRecord(TrackedAfter(t, init[..k]), init[k]) {
      assert init[..k] == recs[..k];
    }
  }

  // ----- preparation -----

  lemma {:induction false} PreparedConcat(accounts: set<Account>, xs: seq<Action>, ys: seq<Action>)
    requires Prepared(accounts, xs) && Prepared(accounts, ys)
    ensures Prepared(accounts, xs + ys)
    decreases |xs|
  {
    hide Sendable, Shaped;
    if xs == [] {
      assert xs + ys == ys;
    } else {
      assert (xs + ys)[0] == xs[0] && (xs + ys)[1..] == xs[1..] + ys;
      if xs[0].Register? {
        PreparedGrows(accounts, accounts + {xs[0].account}, ys);
        PreparedConcat(accounts + {xs[0].account}, xs[1..], ys);
      } else {
        PreparedConcat(accounts, xs[1..], ys);
      }
    }
  }

  lemma ChainIdIsNotEmpty(id: string)
    requires ChainId(id)
    ensures id != ""
  {
  }

  lemma EntryIsSendable(accounts: set<Account>, rec: Record, n: nat, e: Entry, kind: string)
    requires WellFormed(rec) && Shaped(e) && FitsInt64(AmountOf(e)) && kind in {"send", "withdrawal", "deposit"}
    requires e.req == RequestFor(rec, n, e.req.org, kind, e.req.postings) && e.req.org != 0
    requires SingleOrg(e.req) && Registered(accounts, e.req.postings)
    ensures Sendable(accounts, e.req)
  {
    ChainIdIsNotEmpty(rec.id);
    TwoLinesBalance(e.req.postings);
    assert MovementKey(rec, n) != "";
    assert kind in KINDS;
  }

  lemma PreparedSettle(accounts: set<Account>, e: Entry, rest: seq<Action>)
    requires Shaped(e) && Sendable(accounts, e.req) && FitsInt64(AmountOf(e)) && Prepared(accounts, rest)
    ensures Prepared(accounts, [Settle(e)] + rest)
  {
    assert ([Settle(e)] + rest)[1..] == rest;
  }

  lemma PreparedRegister(accounts: set<Account>, a: Account, rest: seq<Action>)
    requires a.org != 0 && Prepared(accounts + {a}, rest)
    ensures Prepared(accounts, [Register(a)] + rest)
  {
    assert ([Register(a)] + rest)[1..] == rest;
  }

  lemma SendIsPrepared(accounts: set<Account>, rec: Record, n: nat, from: Tracked, to: Tracked, s: Asset, amount: int)
    requires WellFormed(rec) && 0 < amount <= MAX_INT64 && from.org == to.org != 0
    requires from.account.org == from.org && to.account.org == to.org
    requires from.account in accounts && to.account in accounts
    ensures Prepared(accounts, [Settle(SendEntry(rec, n, from, to, s, amount))] + [])
  {
    var e := SendEntry(rec, n, from, to, s, amount);
    EntryIsSendable(accounts, rec, n, e, "send");
    hide Sendable, Shaped;
    PreparedSettle(accounts, e, []);
  }

  lemma WithdrawalIsSendable(accounts: set<Account>, rec: Record, n: nat, from: Tracked, s: Asset, amount: int)
    requires WellFormed(rec) && 0 < amount <= MAX_INT64 && from.org != 0 && from.account.org == from.org
    requires from.account in accounts && External(from.org) in accounts
    ensures var e := WithdrawalEntry(rec, n, from, s, amount);
            Shaped(e) && Sendable(accounts, e.req) && FitsInt64(AmountOf(e))
  {
    EntryIsSendable(accounts, rec, n, WithdrawalEntry(rec, n, from, s, amount), "withdrawal");
  }

  lemma DepositIsSendable(accounts: set<Account>, rec: Record, n: nat, to: Tracked, s: Asset, amount: int)
    requires WellFormed(rec) && 0 < amount <= MAX_INT64 && to.org != 0 && to.account.org == to.org
    requires to.account in accounts && External(to.org) in accounts
    ensures var e := DepositEntry(rec, n, to, s, amount);
            Shaped(e) && Sendable(accounts, e.req) && FitsInt64(AmountOf(e))
  {
    EntryIsSendable(accounts, rec, n, DepositEntry(rec, n, to, s, amount), "deposit");
  }

  /** What a payment between two orgs asks for: a withdrawal in one and a deposit in the other. */
  function CrossingActions(rec: Record, n: nat, from: Tracked, to: Tracked, s: Asset, amount: int): seq<Action> {
    [Register(External(from.org))] + ([Register(External(to.org))] +
      ([Settle(WithdrawalEntry(rec, n, from, s, amount))] + ([Settle(DepositEntry(rec, n, to, s, amount))] + [])))
  }

  lemma CrossingIsPrepared(accounts: set<Account>, rec: Record, n: nat, from: Tracked, to: Tracked, s: Asset, amount: int)
    requires WellFormed(rec) && 0 < amount <= MAX_INT64
    requires from.org != 0 && from.account.org == from.org && from.account in accounts
    requires to.org != 0 && to.account.org == to.org && to.account in accounts
    ensures Prepared(accounts, CrossingActions(rec, n, from, to, s, amount))
  {
    var w, d := WithdrawalEntry(rec, n, from, s, amount), DepositEntry(rec, n, to, s, amount);
    var all := accounts + {External(from.org)} + {External(to.org)};
    WithdrawalIsSendable(all, rec, n, from, s, amount);
    DepositIsSendable(all, rec, n, to, s, amount);
    hide Sendable, Shaped, WithdrawalEntry, DepositEntry, Prepared;
    PreparedSettle(all, d, []);
    PreparedSettle(all, w, [Settle(d)] + []);
    PreparedRegister(accounts + {External(from.org)}, External(to.org), [Settle(w)] + ([Settle(d)] + []));
    PreparedRegister(accounts, External(from.org), [Register(External(to.org))] + ([Settle(w)] + ([Settle(d)] + [])));
  }

  lemma MovementIsPrepared(accounts: set<Account>, t: Tracking, rec: Record, n: nat)
    requires n < |rec.movements| && SoundTracking(t) && TracksRegistered(t, accounts)
    requires WellFormed(rec) && Readable(t, rec.movements[n])
    ensures Prepared(accounts, MovementActions(t, rec, n))
  {
    var m := rec.movements[n];
    if Concerns(t, m) {
      var s := ResolveAsset(m).value;
      var acts := MovementActions(t, rec, n);
      if m.from in t && m.to in t && t[m.from].org == t[m.to].org {
        SendIsPrepared(accounts, rec, n, t[m.from], t[m.to], s, m.amount);
        assert acts == [Settle(SendEntry(rec, n, t[m.from], t[m.to], s, m.amount))] + [];
      } else if m.from in t && m.to in t {
        CrossingIsPrepared(accounts, rec, n, t[m.from], t[m.to], s, m.amount);
        assert acts == CrossingActions(rec, n, t[m.from], t[m.to], s, m.amount);
      } else if m.from in t {
        var from := t[m.from];
        var w := WithdrawalEntry(rec, n, from, s, m.amount);
        WithdrawalIsSendable(accounts + {External(from.org)}, rec, n, from, s, m.amount);
        assert acts == [Register(External(from.org))] + ([Settle(w)] + []);
        hide Sendable, Shaped, MovementActions, WithdrawalEntry;
        PreparedSettle(accounts + {External(from.org)}, w, []);
        PreparedRegister(accounts, External(from.org), [Settle(w)] + []);
      } else {
        var to := t[m.to];
        var d := DepositEntry(rec, n, to, s, m.amount);
        DepositIsSendable(accounts + {External(to.org)}, rec, n, to, s, m.amount);
        assert acts == [Register(External(to.org))] + ([Settle(d)] + []);
        hide Sendable, Shaped, MovementActions, DepositEntry;
        PreparedSettle(accounts + {External(to.org)}, d, []);
        PreparedRegister(accounts, External(to.org), [Settle(d)] + []);
      }
    }
  }

  lemma {:induction false} WorkIsPrepared(accounts: set<Account>, t: Tracking, rec: Record, n: nat)
    requires n <= |rec.movements| && SoundTracking(t) && TracksRegistered(t, accounts) && ReadableRecord(t, rec)
    ensures Prepared(accounts, WorkUpTo(t, rec, n))
  {
    hide MovementActions, Prepared, SoundTracking, TracksRegistered, Readable, WellFormed;
    if n > 0 {
      WorkIsPrepared(accounts, t, rec, n - 1);
      MovementIsPrepared(accounts, t, rec, n - 1);
      PreparedConcat(accounts, WorkUpTo(t, rec, n - 1), MovementActions(t, rec, n - 1));
    } else {
      NothingIsPrepared(accounts);
    }
  }

  lemma NothingIsPrepared(accounts: set<Account>)
    ensures Prepared(accounts, [])
  {
  }

  lemma {:induction false} TrackingShrinks(t: Tracking, recs: seq<Record>)
    ensures forall a :: a in TrackedAfter(t, recs) ==> a in t && TrackedAfter(t, recs)[a] == t[a]
  {
    if recs != [] {
      TrackingShrinks(t, recs[..|recs| - 1]);
    }
  }

  lemma {:induction false} AllWorkIsPrepared(accounts: set<Account>, t: Tracking, recs: seq<Record>)
    requires SoundTracking(t) && TracksRegistered(t, accounts) && ReadableStream(t, recs)
    ensures Prepared(accounts, AllWork(t, recs))
  {
    hide Prepared, ReadableStream, WorkUpTo;
    if recs == [] {
      NothingIsPrepared(accounts);
    } else {
      var init, last := recs[..|recs| - 1], recs[|recs| - 1];
      ReadablePrefix(t, recs);
      AllWorkIsPrepared(accounts, t, init);
      TrackingShrinks(t, init);
      WorkIsPrepared(accounts, TrackedAfter(t, init), last, |last.movements|);
      PreparedConcat(accounts, AllWork(t, init), Work(TrackedAfter(t, init), last));
    }
  }
}
