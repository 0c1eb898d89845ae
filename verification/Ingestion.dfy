/**
 Ingestion: what one record makes the ledger do, commit by commit, when the
 process may die between any two commits.

 Power counts the commits a process still makes before it dies. Unlimited is the
 process that never does, so one set of definitions covers both the crash-free
 run and every run with crashes in it. A commit that changes nothing (a replay, an
 account already registered) is no commit: dying next to it is dying before it.
 */
module Ingestion {
  import opened Common
  import opened Decimal
  import opened Ledger

  datatype Movement = Movement(from: string, to: string, assetType: string, code: string, issuer: string,
                               amount: int, unreadable: bool)

  datatype Record = Record(cursor: string, id: string, hash: string, at: Instant,
                           movements: seq<Movement>, closed: string)

  datatype Tracked = Tracked(org: OrgId, account: Account)

  type Tracking = map<string, Tracked>

  datatype Fault = Unreadable | NonPositive | BadAsset | NoSuchOrg | PostRefused(why: Refusal)

  datatype Power = Unlimited | Left(commits: nat)

  datatype Status = Fine | Crashed | Stopped(fault: Fault)

  /** The ledger as a process leaves it, and how the process got on. */
  datatype Run = Run(books: Books, power: Power, status: Status)

  /** The account a movement leaves, when this entry is in its own org's books. */
  datatype Opener = Opener(account: Account, asset: Asset, amount: int)

  datatype Entry = Entry(req: Request, opener: Option<Opener>)

  datatype Action = Register(account: Account) | Settle(entry: Entry) | Halt(fault: Fault)

  // ----- keys -----

  function MovementKey(rec: Record, n: nat): string {
    if |rec.movements| > 1 then rec.id + ":" + Itoa(n) else rec.id
  }

  function OpeningKey(key: string, short: int): string {
    key + ":opening:" + Itoa(short)
  }

  // ----- what a record asks for -----

  function ResolveAsset(m: Movement): Option<Asset> {
    if m.assetType == "native" then Some(Asset("XLM", ""))
    else if m.code == "" || m.issuer == "" then None
    else Some(Asset(m.code, m.issuer))
  }

  /** The movement says what it is made of. */
  predicate NamesAsset(m: Movement) {
    m.assetType == "native" || (m.code != "" && m.issuer != "")
  }

  /** It is made of this: lumens, or what the code and the issuer together name. */
  predicate InAsset(m: Movement, s: Asset) {
    if m.assetType == "native" then s == Asset("XLM", "") else NamesAsset(m) && s.code == m.code && s.issuer == m.issuer
  }

  function RequestFor(rec: Record, n: nat, org: OrgId, kind: string, postings: seq<Posting>): Request {
    Request(org, MovementKey(rec, n), kind, rec.hash, rec.at, postings)
  }

  function SendEntry(rec: Record, n: nat, from: Tracked, to: Tracked, s: Asset, amount: int): Entry {
    Entry(RequestFor(rec, n, from.org, "send",
                     [Posting(from.account, s, -amount), Posting(to.account, s, amount)]),
          Some(Opener(from.account, s, amount)))
  }

  function WithdrawalEntry(rec: Record, n: nat, from: Tracked, s: Asset, amount: int): Entry {
    Entry(RequestFor(rec, n, from.org, "withdrawal",
                     [Posting(from.account, s, -amount), Posting(External(from.org), s, amount)]),
          Some(Opener(from.account, s, amount)))
  }

  function DepositEntry(rec: Record, n: nat, to: Tracked, s: Asset, amount: int): Entry {
    Entry(RequestFor(rec, n, to.org, "deposit",
                     [Posting(to.account, s, amount), Posting(External(to.org), s, -amount)]),
          None)
  }

  /** The balanced entries each affected org records; across two orgs, one in each. */
  function EntriesFor(t: Tracking, rec: Record, n: nat, s: Asset): seq<Entry>
    requires n < |rec.movements|
  {
    var m := rec.movements[n];
    if m.from in t && m.to in t && t[m.from].org == t[m.to].org then
      [SendEntry(rec, n, t[m.from], t[m.to], s, m.amount)]
    else
      (if m.from in t then [WithdrawalEntry(rec, n, t[m.from], s, m.amount)] else []) +
      (if m.to in t then [DepositEntry(rec, n, t[m.to], s, m.amount)] else [])
  }

  /** The counterparty accounts EntriesFor looks up on the way. */
  function CounterpartiesFor(t: Tracking, m: Movement): seq<Action> {
    if m.from in t && m.to in t && t[m.from].org == t[m.to].org then []
    else
      (if m.from in t then [Register(External(t[m.from].org))] else []) +
      (if m.to in t then [Register(External(t[m.to].org))] else [])
  }

  function Settlements(es: seq<Entry>): seq<Action> {
    seq(|es|, i requires 0 <= i < |es| => Settle(es[i]))
  }

  /** applyMovement, as the commits it attempts in order. */
  function MovementActions(t: Tracking, rec: Record, n: nat): seq<Action>
    requires n < |rec.movements|
  {
    var m := rec.movements[n];
    if m.from !in t && m.to !in t then []
    else if m.unreadable then [Halt(Unreadable)]
    else if m.amount <= 0 then [Halt(NonPositive)]
    else match ResolveAsset(m)
      case None => [Halt(BadAsset)]
      case Some(s) => CounterpartiesFor(t, m) + Settlements(EntriesFor(t, rec, n, s))
  }

  /** The actions of the first n movements. */
  function WorkUpTo(t: Tracking, rec: Record, n: nat): seq<Action>
    requires n <= |rec.movements|
  {
    if n == 0 then [] else WorkUpTo(t, rec, n - 1) + MovementActions(t, rec, n - 1)
  }

  function Work(t: Tracking, rec: Record): seq<Action> {
    WorkUpTo(t, rec, |rec.movements|)
  }

  /** Forgetting an address the network deleted. */
  function AfterClose(t: Tracking, rec: Record): Tracking {
    if rec.closed == "" then t else t - {rec.closed}
  }

  // ----- running -----

  function Spend(p: Power): Power {
    if p.Left? && p.commits > 0 then Left(p.commits - 1) else p
  }

  predicate Dead(p: Power) {
    p == Left(0)
  }

  function Commit(b: Books, b': Books, p: Power): Run {
    if b' == b then Run(b, p, Fine)
    else if Dead(p) then Run(b, p, Crashed)
    else Run(b', Spend(p), Fine)
  }

  function RunRegister(b: Books, a: Account, p: Power): Run {
    if a.org == 0 then Run(b, p, Stopped(NoSuchOrg))
    else Commit(b, b.(accounts := b.accounts + {a}), p)
  }

  function RunPost(b: Books, r: Request, p: Power): Run {
    var (b', o) := Post(b, r);
    if o.Refused? then Run(b, p, Stopped(PostRefused(o.why))) else Commit(b, b', p)
  }

  function OpeningRequest(req: Request, o: Opener, short: int): Request {
    Request(req.org, OpeningKey(req.key, short), "opening", "", req.at,
            [Posting(o.account, o.asset, short), Posting(External(req.org), o.asset, -short)])
  }

  function BalanceOf(b: Books, org: OrgId, a: Account, s: Asset): int {
    if a.org == org then Held(b.balances, a, s) else 0
  }

  /** open: books what the account must have held, if the books are short of it. */
  function RunOpen(b: Books, req: Request, o: Opener, p: Power): Run {
    var short := o.amount - BalanceOf(b, req.org, o.account, o.asset);
    if short <= 0 then Run(b, p, Fine)
    else
      var r := RunRegister(b, External(req.org), p);
      if r.status != Fine then r else RunPost(r.books, OpeningRequest(req, o, short), r.power)
  }

  function RunSettle(b: Books, e: Entry, p: Power): Run {
    var first := RunPost(b, e.req, p);
    if first.status == Stopped(PostRefused(InsufficientFunds)) && e.opener.Some? then
      var ready := RunOpen(b, e.req, e.opener.value, p);
      if ready.status != Fine then ready else RunPost(ready.books, e.req, ready.power)
    else first
  }

  function RunAction(b: Books, act: Action, p: Power): Run {
    match act
    case Register(a) => RunRegister(b, a, p)
    case Settle(e) => RunSettle(b, e, p)
    case Halt(f) => Run(b, p, Stopped(f))
  }

  function RunActions(b: Books, acts: seq<Action>, p: Power): Run
    decreases |acts|
  {
    if acts == [] then Run(b, p, Fine) else
      var r := RunAction(b, acts[0], p);
      if r.status != Fine then r else RunActions(r.books, acts[1..], r.power)
  }

  // ----- shape of entries -----

  /** Two opposite lines in one asset and one org: the payer's own, or a counterparty's. */
  predicate Shaped(e: Entry) {
    var ps := e.req.postings;
    && |ps| == 2
    && ps[0].account.org == e.req.org && ps[1].account.org == e.req.org
    && ps[0].asset == ps[1].asset
    && ps[1].amount == -ps[0].amount
    && match e.opener
       case Some(o) =>
         ps[0] == Posting(o.account, o.asset, -o.amount) && o.amount > 0 && o.account.org == e.req.org
       case None => ps[0].amount > 0 && ps[1].account.External?
  }

  predicate ShapedAction(act: Action) {
    act.Settle? ==> Shaped(act.entry)
  }

  predicate ShapedActions(acts: seq<Action>) {
    forall i :: 0 <= i < |acts| ==> ShapedAction(acts[i])
  }

  /** Tracked accounts belong to the org they are tracked for, and are not counterparties. */
  predicate SoundTracking(t: Tracking) {
    forall a :: a in t ==> t[a].account.org == t[a].org && (t[a].account.Member? || t[a].account.Treasury?)
  }

  lemma MovementsAreShaped(t: Tracking, rec: Record, n: nat)
    requires SoundTracking(t) && n < |rec.movements|
    ensures ShapedActions(MovementActions(t, rec, n))
  {
  }

  lemma {:induction false} WorkIsShaped(t: Tracking, rec: Record, n: nat)
    requires SoundTracking(t) && n <= |rec.movements|
    ensures ShapedActions(WorkUpTo(t, rec, n))
  {
    hide MovementActions, SoundTracking;
    if n > 0 {
      WorkIsShaped(t, rec, n - 1);
      MovementsAreShaped(t, rec, n - 1);
    }
  }

  // ----- every run keeps the books valid, and only appends -----

  /** b' is a later state of the books b. */
  ghost predicate Later(b: Books, b': Books) {
    ValidBooks(b') && b.txs <= b'.txs && b.accounts <= b'.accounts
  }

  lemma RunPostKeeps(b: Books, r: Request, p: Power)
    requires ValidBooks(b)
    ensures Later(b, RunPost(b, r, p).books)
  {
    hide ValidBooks, Valid, ColumnsOk;
    PostKeepsValid(b, r);
  }

  lemma RunRegisterKeeps(b: Books, a: Account, p: Power)
    requires ValidBooks(b)
    ensures Later(b, RunRegister(b, a, p).books)
  {
    RegisterKeepsValid(b, a);
  }

  lemma RunOpenKeeps(b: Books, req: Request, o: Opener, p: Power)
    requires ValidBooks(b)
    ensures Later(b, RunOpen(b, req, o, p).books)
  {
    var short := o.amount - BalanceOf(b, req.org, o.account, o.asset);
    RunRegisterKeeps(b, External(req.org), p);
    var r := RunRegister(b, External(req.org), p);
    RunPostKeeps(r.books, OpeningRequest(req, o, short), r.power);
  }

  lemma RunSettleKeeps(b: Books, e: Entry, p: Power)
    requires ValidBooks(b)
    ensures Later(b, RunSettle(b, e, p).books)
  {
    RunPostKeeps(b, e.req, p);
    if e.opener.Some? {
      RunOpenKeeps(b, e.req, e.opener.value, p);
      var ready := RunOpen(b, e.req, e.opener.value, p);
      RunPostKeeps(ready.books, e.req, ready.power);
    }
  }

  lemma RunActionKeeps(b: Books, act: Action, p: Power)
    requires ValidBooks(b)
    ensures Later(b, RunAction(b, act, p).books)
  {
    match act
    case Register(a) => RunRegisterKeeps(b, a, p);
    case Settle(e) => RunSettleKeeps(b, e, p);
    case Halt(_) =>
  }

  lemma {:induction false} RunActionsKeep(b: Books, acts: seq<Action>, p: Power)
    requires ValidBooks(b)
    ensures Later(b, RunActions(b, acts, p).books)
    decreases |acts|
  {
    if acts != [] {
      RunActionKeeps(b, acts[0], p);
      var r := RunAction(b, acts[0], p);
      if r.status == Fine {
        RunActionsKeep(r.books, acts[1..], r.power);
      }
    }
  }

  // ----- gluing runs together -----

  lemma ActionPowerStays(b: Books, act: Action)
    ensures RunAction(b, act, Unlimited).power == Unlimited
  {
    hide Post;
  }

  lemma {:induction false} PowerStays(b: Books, acts: seq<Action>)
    ensures RunActions(b, acts, Unlimited).power == Unlimited
    decreases |acts|
  {
    if acts != [] {
      ActionPowerStays(b, acts[0]);
      hide RunAction;
      var r := RunAction(b, acts[0], Unlimited);
      if r.status == Fine {
        PowerStays(r.books, acts[1..]);
      }
    }
  }

  lemma {:induction false} RunInTwo(b: Books, xs: seq<Action>, ys: seq<Action>, p: Power)
    ensures RunActions(b, xs + ys, p) ==
            var r := RunActions(b, xs, p);
            if r.status != Fine then r else RunActions(r.books, ys, r.power)
    decreases |xs|
  {
    hide RunAction;
    if xs == [] {
      assert xs + ys == ys;
    } else {
      assert (xs + ys)[0] == xs[0] && (xs + ys)[1..] == xs[1..] + ys;
      var r := RunAction(b, xs[0], p);
      if r.status == Fine {
        RunInTwo(r.books, xs[1..], ys, r.power);
      }
    }
  }
}
