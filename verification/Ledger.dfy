/**
 The double-entry ledger: what a posting request is, when it is valid, and what
 one atomic Post does to the books.

 Accounts and assets are named by what makes them unique in the database (the
 partial unique indexes on ledger_accounts, the unique index on assets), so the
 surrogate ids disappear and a treasury's name is its name in lower case; a transaction's id is its position in the log.
 */
module Ledger {
  import opened Common
  import opened SetSums

  type OrgId = int

  datatype Asset = Asset(code: string, issuer: string)

  datatype Account =
    | Member(org: OrgId, owner: string)
    | Treasury(org: OrgId, name: string)
    | External(org: OrgId)
    | FeeExpense(org: OrgId)
    | SponsoredReserve(org: OrgId)
    | Trading(org: OrgId)

  /** Only counterparty accounts may go below zero. */
  predicate AllowsNegative(a: Account) {
    a.External? || a.Trading?
  }

  /** One signed line of a journal entry, in stroops. */
  datatype Posting = Posting(account: Account, asset: Asset, amount: int)

  datatype Instant = Unset | At(nanos: int)

  datatype Request = Request(org: OrgId, key: string, kind: string, ref: string,
                             at: Instant, postings: seq<Posting>)

  const KINDS := {"deposit", "send", "fee", "sponsor", "reserve_release", "withdrawal", "trade", "opening"}

  type Index = map<(Account, Asset), int>

  /** Everything the ledger keeps: registered accounts, the append-only log, and
      the derived balance table. */
  datatype Books = Books(accounts: set<Account>, txs: seq<Request>, balances: Index)

  const EMPTY := Books({}, [], map[])

  datatype Refusal = Invalid | Constraint | KeyReused | InsufficientFunds | Overflow | CrossOrg

  datatype Outcome = Posted(id: nat) | Refused(why: Refusal)

  /** What request_fingerprint stands for: the meaning of a request, in which the
      order of its lines does not count. Module Fingerprint shows that the bytes
      hashed decide exactly this. */
  datatype Content = Content(org: OrgId, kind: string, ref: string, at: Instant,
                             lines: multiset<Posting>)

  function ContentOf(r: Request): Content {
    Content(r.org, r.kind, r.ref, r.at, multiset(r.postings))
  }

  function Held(b: Index, a: Account, s: Asset): int {
    if (a, s) in b then b[(a, s)] else 0
  }

  // ----- validation -----

  /** The amounts a request posts in one asset, in order. */
  function AmountsOf(ps: seq<Posting>, s: Asset): seq<int> {
    if ps == [] then [] else
      var init := AmountsOf(ps[..|ps| - 1], s);
      var p := ps[|ps| - 1];
      if p.asset == s then init + [p.amount] else init
  }

  /** Every running total a checked sum passes through is representable. */
  predicate TotalsFit(amounts: seq<int>) {
    forall i :: 0 <= i <= |amounts| ==> FitsInt64(SumSeq(amounts[..i]))
  }

  predicate Balanced(ps: seq<Posting>) {
    forall i :: 0 <= i < |ps| ==>
      TotalsFit(AmountsOf(ps, ps[i].asset)) && SumSeq(AmountsOf(ps, ps[i].asset)) == 0
  }

  predicate Valid(r: Request) {
    && r.org != 0
    && r.key != ""
    && r.kind != ""
    && r.at.At?
    && r.postings != []
    && (forall i :: 0 <= i < |r.postings| ==> r.postings[i].amount != 0)
    && Balanced(r.postings)
  }

  predicate IsHash(ref: string) {
    |ref| == 64 && forall i :: 0 <= i < 64 ==> '0' <= ref[i] <= '9' || 'a' <= ref[i] <= 'f'
  }

  /** The CHECK constraints of ledger_transactions. */
  predicate ColumnsOk(r: Request) {
    r.kind in KINDS && (r.ref == "" || IsHash(r.ref))
  }

  // ----- Post -----

  /** Where (org, key) sits in the log, or its length when it is not there. */
  function IndexOf(txs: seq<Request>, org: OrgId, key: string): (i: nat)
    ensures i <= |txs|
    ensures i < |txs| ==> txs[i].org == org && txs[i].key == key
    ensures forall j :: 0 <= j < i ==> !(txs[j].org == org && txs[j].key == key)
  {
    if txs == [] then 0
    else if txs[0].org == org && txs[0].key == key then 0
    else 1 + IndexOf(txs[1..], org, key)
  }

  datatype Rows = Inserted(balances: Index) | Failed(why: Refusal)

  /** One row through the balance trigger. */
  function ApplyRow(accounts: set<Account>, b: Index, p: Posting): Rows {
    var n := Held(b, p.account, p.asset) + p.amount;
    if p.account !in accounts then Failed(Constraint)
    else if !FitsInt64(n) then Failed(Overflow)
    else if n < 0 && !AllowsNegative(p.account) then Failed(InsufficientFunds)
    else Inserted(b[(p.account, p.asset) := n])
  }

  /** All rows in order, the first failure rolling everything back. */
  function ApplyRows(accounts: set<Account>, b: Index, ps: seq<Posting>): Rows
    decreases |ps|
  {
    if ps == [] then Inserted(b) else
      var first := ApplyRow(accounts, b, ps[0]);
      if first.Failed? then first else ApplyRows(accounts, first.balances, ps[1..])
  }

  predicate SingleOrg(r: Request) {
    forall i :: 0 <= i < |r.postings| ==> r.postings[i].account.org == r.org
  }

  /** Post as one atomic step on the books. */
  function Post(b: Books, r: Request): (Books, Outcome) {
    if !Valid(r) then (b, Refused(Invalid))
    else if !ColumnsOk(r) then (b, Refused(Constraint))
    else
      var i := IndexOf(b.txs, r.org, r.key);
      if i < |b.txs| then
        (b, if ContentOf(b.txs[i]) == ContentOf(r) then Posted(i + 1) else Refused(KeyReused))
      else
        var rows := ApplyRows(b.accounts, b.balances, r.postings);
        if rows.Failed? then (b, Refused(rows.why))
        else if !SingleOrg(r) then (b, Refused(CrossOrg))
        else (b.(txs := b.txs + [r], balances := rows.balances), Posted(|b.txs| + 1))
  }

  // ----- what every reachable ledger keeps -----

  /** The part of one request that touches an account in an asset. */
  function LineSum(ps: seq<Posting>, a: Account, s: Asset): int {
    if ps == [] then 0 else
      LineSum(ps[..|ps| - 1], a, s) +
      (var p := ps[|ps| - 1]; if p.account == a && p.asset == s then p.amount else 0)
  }

  /** The fold of every entry in the log. */
  function EntrySum(txs: seq<Request>, a: Account, s: Asset): int {
    if txs == [] then 0 else
      EntrySum(txs[..|txs| - 1], a, s) + LineSum(txs[|txs| - 1].postings, a, s)
  }

  predicate UniqueKeys(txs: seq<Request>) {
    forall i, j :: 0 <= i < j < |txs| ==> txs[i].org != txs[j].org || txs[i].key != txs[j].key
  }

  predicate Registered(accounts: set<Account>, ps: seq<Posting>) {
    forall i :: 0 <= i < |ps| ==> ps[i].account in accounts
  }

  ghost predicate IndexIsFold(b: Books) {
    forall a: Account, s: Asset :: Held(b.balances, a, s) == EntrySum(b.txs, a, s)
  }

  ghost predicate NoneOverdrawn(b: Index) {
    forall a: Account, s: Asset :: Held(b, a, s) < 0 ==> AllowsNegative(a)
  }

  ghost predicate ValidBooks(b: Books) {
    && UniqueKeys(b.txs)
    && (forall i :: 0 <= i < |b.txs| ==>
          && Valid(b.txs[i]) && ColumnsOk(b.txs[i])
          && SingleOrg(b.txs[i]) && Registered(b.accounts, b.txs[i].postings))
    && IndexIsFold(b)
    && NoneOverdrawn(b.balances)
  }

  lemma {:induction false} LineSumFront(ps: seq<Posting>, a: Account, s: Asset)
    requires ps != []
    ensures LineSum(ps, a, s) ==
            (if ps[0].account == a && ps[0].asset == s then ps[0].amount else 0) + LineSum(ps[1..], a, s)
  {
    if |ps| > 1 {
      var init := ps[..|ps| - 1];
      LineSumFront(init, a, s);
      assert init[1..] == ps[1..][..|ps[1..]| - 1];
    } else {
      assert ps[1..] == [];
    }
  }

  /** Inserting rows moves every balance by exactly its lines, and overdraws nobody. */
  lemma {:induction false} RowsMoveBalances(accounts: set<Account>, b: Index, ps: seq<Posting>)
    requires ApplyRows(accounts, b, ps).Inserted?
    ensures var after := ApplyRows(accounts, b, ps).balances;
            && (forall a: Account, s: Asset :: Held(after, a, s) == Held(b, a, s) + LineSum(ps, a, s))
            && Registered(accounts, ps)
            && (NoneOverdrawn(b) ==> NoneOverdrawn(after))
    decreases |ps|
  {
    if ps != [] {
      var mid := ApplyRow(accounts, b, ps[0]).balances;
      RowsMoveBalances(accounts, mid, ps[1..]);
      forall a: Account, s: Asset
        ensures Held(ApplyRows(accounts, b, ps).balances, a, s) == Held(b, a, s) + LineSum(ps, a, s)
      {
        LineSumFront(ps, a, s);
      }
      assert forall i :: 0 < i < |ps| ==> ps[i] == ps[1..][i - 1];
    }
  }

  /** What a line finds: what its account held and the lines before it moved, and itself. */
  function BalanceAt(b: Index, ps: seq<Posting>, i: nat): int
    requires i < |ps|
  {
    var p := ps[i];
    Held(b, p.account, p.asset) + LineSum(ps[..i + 1], p.account, p.asset)
  }

  /** The i-th line can be entered after the ones before it. */
  predicate LineGoes(accounts: set<Account>, b: Index, ps: seq<Posting>, i: nat)
    requires i < |ps|
  {
    && ps[i].account in accounts
    && MIN_INT64 <= BalanceAt(b, ps, i) <= MAX_INT64
    && (BalanceAt(b, ps, i) >= 0 || ps[i].account.External? || ps[i].account.Trading?)
  }

  predicate LinesGo(accounts: set<Account>, b: Index, ps: seq<Posting>, n: nat)
    requires n <= |ps|
  {
    forall i :: 0 <= i < n ==> LineGoes(accounts, b, ps, i)
  }

  /** Why a line cannot be entered. */
  predicate LineFails(accounts: set<Account>, b: Index, ps: seq<Posting>, i: nat, why: Refusal)
    requires i < |ps|
  {
    !LineGoes(accounts, b, ps, i) &&
    why == if ps[i].account !in accounts then Constraint
           else if !(MIN_INT64 <= BalanceAt(b, ps, i) <= MAX_INT64) then Overflow
           else InsufficientFunds
  }

  lemma BalanceAtLater(b: Index, ps: seq<Posting>, first: Index, i: nat)
    requires ps != [] && i < |ps[1..]|
    requires forall a: Account, s: Asset ::
               Held(first, a, s) == Held(b, a, s) + if ps[0].account == a && ps[0].asset == s then ps[0].amount else 0
    ensures BalanceAt(first, ps[1..], i) == BalanceAt(b, ps, i + 1)
  {
    hide LineSum, Held;
    var upto := ps[..i + 2];
    assert upto[1..] == ps[1..][..i + 1];
    LineSumFront(upto, ps[i + 1].account, ps[i + 1].asset);
  }

  lemma LineLater(accounts: set<Account>, b: Index, ps: seq<Posting>, first: Index, i: nat)
    requires ps != [] && i < |ps[1..]|
    requires forall a: Account, s: Asset ::
               Held(first, a, s) == Held(b, a, s) + if ps[0].account == a && ps[0].asset == s then ps[0].amount else 0
    ensures LineGoes(accounts, first, ps[1..], i) <==> LineGoes(accounts, b, ps, i + 1)
    ensures forall why :: LineFails(accounts, first, ps[1..], i, why) <==> LineFails(accounts, b, ps, i + 1, why)
  {
    hide BalanceAt, Held;
    BalanceAtLater(b, ps, first, i);
  }

  lemma FirstLine(accounts: set<Account>, b: Index, ps: seq<Posting>)
    requires ps != []
    ensures var r := ApplyRow(accounts, b, ps[0]);
            && (r.Inserted? <==> LineGoes(accounts, b, ps, 0))
            && (r.Failed? ==> LineFails(accounts, b, ps, 0, r.why))
            && (r.Inserted? ==> forall a: Account, s: Asset ::
                  Held(r.balances, a, s) == Held(b, a, s) + if ps[0].account == a && ps[0].asset == s then ps[0].amount else 0)
  {
    var one := ps[..1];
    assert one[0] == ps[0] && one[..0] == [];
    assert LineSum(one[..0], ps[0].account, ps[0].asset) == 0;
    assert LineSum(one, ps[0].account, ps[0].asset) == ps[0].amount;
  }

  /** Lines go in exactly while each finds its account registered, its balance in range and,
      unless it is a counterparty's, not below zero; the first that does not is the reason. */
  lemma {:induction false} RowsGoIff(accounts: set<Account>, b: Index, ps: seq<Posting>) returns (i: nat)
    ensures i <= |ps| && LinesGo(accounts, b, ps, i)
    ensures ApplyRows(accounts, b, ps).Inserted? <==> i == |ps|
    ensures i < |ps| ==> ApplyRows(accounts, b, ps).Failed?
                         && LineFails(accounts, b, ps, i, ApplyRows(accounts, b, ps).why)
    decreases |ps|
  {
    hide ApplyRow, LineGoes, LineFails, Held;
    i := 0;
    if ps != [] {
      FirstLine(accounts, b, ps);
      var first := ApplyRow(accounts, b, ps[0]);
      if first.Inserted? {
        var k := RowsGoIff(accounts, first.balances, ps[1..]);
        i := k + 1;
        forall j | 0 <= j < i ensures LineGoes(accounts, b, ps, j) {
          if j > 0 {
            LineLater(accounts, b, ps, first.balances, j - 1);
          }
        }
        if k < |ps[1..]| {
          LineLater(accounts, b, ps, first.balances, k);
        }
      }
    }
  }

  /** Every call of Post, accepted or refused, replayed or new, keeps the books valid. */
  lemma PostKeepsValid(b: Books, r: Request)
    requires ValidBooks(b)
    ensures ValidBooks(Post(b, r).0)
  {
    var b' := Post(b, r).0;
    if b' != b {
      RowsMoveBalances(b.accounts, b.balances, r.postings);
      assert b'.txs[..|b'.txs| - 1] == b.txs;
    }
  }

  lemma RegisterKeepsValid(b: Books, a: Account)
    requires ValidBooks(b)
    ensures ValidBooks(b.(accounts := b.accounts + {a}))
  {
    var b' := b.(accounts := b.accounts + {a});
    forall i | 0 <= i < |b'.txs| ensures Registered(b'.accounts, b'.txs[i].postings) {
      assert Registered(b.accounts, b.txs[i].postings);
    }
  }

  lemma EmptyIsValid()
    ensures ValidBooks(EMPTY)
  {
  }

  // ----- conservation -----

  function OrgAccounts(b: Books, org: OrgId): set<Account> {
    set a | a in b.accounts && a.org == org
  }

  /** What an org holds in one asset, all its accounts together. */
  ghost function OrgTotal(b: Books, org: OrgId, s: Asset): int {
    Sum(OrgAccounts(b, org), (a: Account) => Held(b.balances, a, s))
  }

  /** A line summed over a set of accounts counts once when its account is among them. */
  lemma {:induction false} LineTotal(accts: set<Account>, ps: seq<Posting>, s: Asset)
    requires forall i :: 0 <= i < |ps| ==> ps[i].account in accts
    ensures Sum(accts, (a: Account) => LineSum(ps, a, s)) == SumSeq(AmountsOf(ps, s))
  {
    if ps == [] {
      SumZero(accts, (a: Account) => LineSum(ps, a, s));
    } else {
      var init, p := ps[..|ps| - 1], ps[|ps| - 1];
      LineTotal(accts, init, s);
      var point := (a: Account) => if p.account == a && p.asset == s then p.amount else 0;
      SumAdd(accts, (a: Account) => LineSum(init, a, s), point, (a: Account) => LineSum(ps, a, s));
      SumRemove(accts, point, p.account);
      SumZero(accts - {p.account}, point);
      assert p.asset == s ==>
          AmountsOf(ps, s)[..|AmountsOf(ps, s)| - 1] == AmountsOf(init, s);
    }
  }

  lemma {:induction false} UnusedAsset(ps: seq<Posting>, s: Asset)
    requires forall i :: 0 <= i < |ps| ==> ps[i].asset != s
    ensures AmountsOf(ps, s) == []
  {
    if ps != [] {
      UnusedAsset(ps[..|ps| - 1], s);
    }
  }

  lemma {:induction false} ForeignLines(ps: seq<Posting>, a: Account, s: Asset)
    requires forall i :: 0 <= i < |ps| ==> ps[i].account != a
    ensures LineSum(ps, a, s) == 0
  {
    if ps != [] {
      ForeignLines(ps[..|ps| - 1], a, s);
    }
  }

  /** One balanced single-org transaction adds nothing to any org's total. */
  lemma TxAddsNothing(accounts: set<Account>, r: Request, org: OrgId, s: Asset)
    requires Valid(r) && SingleOrg(r) && Registered(accounts, r.postings)
    ensures Sum(set a | a in accounts && a.org == org, (a: Account) => LineSum(r.postings, a, s)) == 0
  {
    var accts := set a | a in accounts && a.org == org;
    if r.org == org {
      LineTotal(accts, r.postings, s);
      if exists i :: 0 <= i < |r.postings| && r.postings[i].asset == s {
        var i :| 0 <= i < |r.postings| && r.postings[i].asset == s;
        assert SumSeq(AmountsOf(r.postings, r.postings[i].asset)) == 0;
      } else {
        UnusedAsset(r.postings, s);
      }
    } else {
      forall a | a in accts ensures LineSum(r.postings, a, s) == 0 {
        ForeignLines(r.postings, a, s);
      }
      SumZero(accts, (a: Account) => LineSum(r.postings, a, s));
    }
  }

  lemma {:induction false} LogAddsNothing(accounts: set<Account>, txs: seq<Request>, org: OrgId, s: Asset)
    requires forall i :: 0 <= i < |txs| ==>
               Valid(txs[i]) && SingleOrg(txs[i]) && Registered(accounts, txs[i].postings)
    ensures Sum(set a | a in accounts && a.org == org, (a: Account) => EntrySum(txs, a, s)) == 0
  {
    var accts := set a | a in accounts && a.org == org;
    if txs == [] {
      SumZero(accts, (a: Account) => EntrySum(txs, a, s));
    } else {
      var init, last := txs[..|txs| - 1], txs[|txs| - 1];
      LogAddsNothing(accounts, init, org, s);
      TxAddsNothing(accounts, last, org, s);
      SumAdd(accts, (a: Account) => EntrySum(init, a, s),
             (a: Account) => LineSum(last.postings, a, s), (a: Account) => EntrySum(txs, a, s));
    }
  }

  /** Conservation and isolation, in every valid ledger: each org's balances in each
      asset cancel out exactly, no transaction touches an account of another org, and
      whoever is below zero is a counterparty. */
  lemma Conservation(b: Books)
    requires ValidBooks(b)
    ensures forall org: OrgId, s: Asset :: OrgTotal(b, org, s) == 0
    ensures forall t, p :: t in b.txs && p in t.postings ==> p.account.org == t.org
    ensures forall a: Account, s: Asset :: Held(b.balances, a, s) < 0 ==> a.External? || a.Trading?
  {
    forall org: OrgId, s: Asset ensures OrgTotal(b, org, s) == 0 {
      LogAddsNothing(b.accounts, b.txs, org, s);
      SumAgree(OrgAccounts(b, org), (a: Account) => Held(b.balances, a, s),
               (a: Account) => EntrySum(b.txs, a, s));
    }
  }

  // ----- every ledger there can be -----

  datatype Change = Registering(account: Account) | Asking(request: Request)

  /** The books after a list of changes from empty ones, whatever was asked for. */
  function Reached(changes: seq<Change>): Books {
    if changes == [] then EMPTY else
      var b := Reached(changes[..|changes| - 1]);
      match changes[|changes| - 1]
      case Registering(a) => b.(accounts := b.accounts + {a})
      case Asking(r) => Post(b, r).0
  }

  lemma {:induction false} ReachedIsValid(changes: seq<Change>)
    ensures ValidBooks(Reached(changes))
  {
    if changes != [] {
      var b := Reached(changes[..|changes| - 1]);
      ReachedIsValid(changes[..|changes| - 1]);
      hide ValidBooks, Post;
      match changes[|changes| - 1]
      case Registering(a) => RegisterKeepsValid(b, a);
      case Asking(r) => PostKeepsValid(b, r);
    } else {
      EmptyIsValid();
    }
  }

  /** In every reachable ledger, and so after every interleaving of everybody's posts: each
      org's balances in each asset cancel out, nothing crosses orgs, only counterparties
      are below zero, and the balance table is the fold of the log. */
  lemma EveryLedgerConserves(changes: seq<Change>)
    ensures forall org: OrgId, s: Asset :: OrgTotal(Reached(changes), org, s) == 0
    ensures forall t, p :: t in Reached(changes).txs && p in t.postings ==> p.account.org == t.org
    ensures forall a: Account, s: Asset :: Held(Reached(changes).balances, a, s) < 0 ==> a.External? || a.Trading?
    ensures IndexIsFold(Reached(changes))
  {
    ReachedIsValid(changes);
    Conservation(Reached(changes));
    hide Reached, OrgTotal;
  }

  // ----- what is in it -----

  predicate AKind(kind: string) {
    || kind == "deposit" || kind == "send" || kind == "fee" || kind == "sponsor" || kind == "reserve_release"
    || kind == "withdrawal" || kind == "trade" || kind == "opening"
  }

  /** Lower-case hexadecimal, sixty-four digits of it, or nothing. */
  predicate ARef(ref: string) {
    ref == "" || (|ref| == 64 && forall c :: c in ref ==> c in "0123456789abcdef")
  }

  lemma HexDigits(c: char)
    ensures c in "0123456789abcdef" <==> '0' <= c <= '9' || 'a' <= c <= 'f'
  {
    var s := "0123456789abcdef";
    if '0' <= c <= '9' {
      assert s[c as int - '0' as int] == c;
    }
    if 'a' <= c <= 'f' {
      assert s[10 + c as int - 'a' as int] == c;
    }
  }

  lemma RefsAreHex(ref: string)
    ensures (ref == "" || IsHash(ref)) <==> ARef(ref)
  {
    forall c ensures c in "0123456789abcdef" <==> '0' <= c <= '9' || 'a' <= c <= 'f' {
      HexDigits(c);
    }
    if ARef(ref) {
      assert forall i :: 0 <= i < |ref| ==> ref[i] in ref;
    }
  }

  /** A transaction as every ledger holds it. */
  predicate Proper(t: Request) {
    && t.org != 0 && t.key != "" && AKind(t.kind) && ARef(t.ref) && t.at.At? && t.postings != []
    && (forall p :: p in t.postings ==> p.amount != 0 && p.account.org == t.org)
    && forall p :: p in t.postings ==> SumSeq(AmountsOf(t.postings, p.asset)) == 0
  }

  lemma ProperIs(t: Request)
    requires Valid(t) && ColumnsOk(t) && SingleOrg(t)
    ensures Proper(t)
  {
    RefsAreHex(t.ref);
    hide ARef, IsHash, AmountsOf;
  }

  /** What the table columns let through. */
  lemma ColumnsTell(r: Request)
    ensures ColumnsOk(r) <==> AKind(r.kind) && ARef(r.ref)
  {
    RefsAreHex(r.ref);
    hide ARef, IsHash;
  }

  ghost predicate BalancesFit(b: Index) {
    forall a: Account, s: Asset :: MIN_INT64 <= Held(b, a, s) <= MAX_INT64
  }

  lemma {:induction false} RowsFit(accounts: set<Account>, b: Index, ps: seq<Posting>)
    requires BalancesFit(b) && ApplyRows(accounts, b, ps).Inserted?
    ensures BalancesFit(ApplyRows(accounts, b, ps).balances)
    decreases |ps|
  {
    if ps != [] {
      FirstLine(accounts, b, ps);
      var first := ApplyRow(accounts, b, ps[0]).balances;
      assert Held(first, ps[0].account, ps[0].asset) <= MAX_INT64;
      forall a: Account, s: Asset ensures MIN_INT64 <= Held(first, a, s) <= MAX_INT64 {
        assert (a, s) != (ps[0].account, ps[0].asset) ==> Held(first, a, s) == Held(b, a, s);
      }
      RowsFit(accounts, ApplyRow(accounts, b, ps[0]).balances, ps[1..]);
    }
  }

  /** In every reachable ledger each transaction is proper and each balance fits 64 bits. */
  lemma {:induction false} EveryEntryIsProper(changes: seq<Change>)
    ensures forall t :: t in Reached(changes).txs ==> Proper(t)
    ensures BalancesFit(Reached(changes).balances)
  {
    ReachedIsValid(changes);
    forall t | t in Reached(changes).txs ensures Proper(t) {
      ProperIs(t);
    }
    if changes != [] {
      EveryEntryIsProper(changes[..|changes| - 1]);
      var b, last := Reached(changes[..|changes| - 1]), changes[|changes| - 1];
      hide Proper, Valid, ColumnsOk;
      if last.Asking? && ApplyRows(b.accounts, b.balances, last.request.postings).Inserted? {
        RowsFit(b.accounts, b.balances, last.request.postings);
      }
    }
  }

  // ----- replay -----

  lemma {:induction false} IndexAppend(txs: seq<Request>, t: Request, org: OrgId, key: string)
    ensures IndexOf(txs, org, key) < |txs| ==> IndexOf(txs + [t], org, key) == IndexOf(txs, org, key)
    ensures IndexOf(txs, org, key) == |txs| ==>
              IndexOf(txs + [t], org, key) == (if t.org == org && t.key == key then |txs| else |txs| + 1)
  {
    if txs == [] {
      assert (txs + [t])[1..] == [];
    } else {
      assert (txs + [t])[1..] == txs[1..] + [t];
      IndexAppend(txs[1..], t, org, key);
    }
  }

  /** r is in the books under its own key, with its own content. */
  predicate Recorded(b: Books, r: Request) {
    var i := IndexOf(b.txs, r.org, r.key);
    Valid(r) && ColumnsOk(r) && i < |b.txs| && ContentOf(b.txs[i]) == ContentOf(r)
  }

  /** A request posts at most once however often it is sent: after an accepted Post
      it is recorded, and sending it again answers with the same id and changes nothing. */
  lemma ReplayIsHarmless(b: Books, r: Request)
    requires Post(b, r).1.Posted?
    ensures var (b', o) := Post(b, r); Recorded(b', r) && Post(b', r) == (b', o)
  {
    var (b', o) := Post(b, r);
    if b' != b {
      IndexAppend(b.txs, r, r.org, r.key);
    }
  }

  /** Being recorded survives every later Post, and later Posts only append. */
  lemma RecordedIsForever(b: Books, r: Request, q: Request)
    ensures b.txs <= Post(b, q).0.txs
    ensures Recorded(b, r) ==> Recorded(Post(b, q).0, r)
  {
    var b' := Post(b, q).0;
    if b' != b {
      IndexAppend(b.txs, q, r.org, r.key);
    }
  }

  /** A key sent again with any other meaning is refused, and nothing is written. */
  lemma ReusedKeyIsRefused(b: Books, r: Request, q: Request)
    requires Recorded(b, r) && Valid(q) && ColumnsOk(q)
    requires q.org == r.org && q.key == r.key && ContentOf(q) != ContentOf(r)
    ensures Post(b, q) == (b, Refused(KeyReused))
  {
  }
}
