/** The ledger's database handle: the operations that read and change it in place. */
module LedgerStore {
  import opened Common
  import opened Ledger

  datatype ValidationError =
    | NoOrg | NoKey | NoKind | NoTime | NoPostings
    | ZeroAmount(line: nat)
    | SumOverflow(asset: Asset)
    | Unbalanced(asset: Asset)

  /** What each validation error is allowed to be said about. */
  predicate Explains(e: ValidationError, r: Request) {
    match e
    case NoOrg => r.org == 0
    case NoKey => r.key == ""
    case NoKind => r.kind == ""
    case NoTime => r.at == Unset
    case NoPostings => r.postings == []
    case ZeroAmount(i) =>
      i < |r.postings| && r.postings[i].amount == 0
      && forall j :: 0 <= j < i ==> r.postings[j].amount != 0
    case SumOverflow(s) => !TotalsFit(AmountsOf(r.postings, s))
    case Unbalanced(s) => SumSeq(AmountsOf(r.postings, s)) != 0
  }

  /** money.Sum: adds left to right and refuses an unrepresentable running total. */
  method CheckedSum(amounts: seq<int>) returns (total: Option<int>)
    ensures total.Some? <==> TotalsFit(amounts)
    ensures total.Some? ==> total.value == SumSeq(amounts)
  {
    var sum := 0;
    for i := 0 to |amounts|
      invariant sum == SumSeq(amounts[..i])
      invariant forall j :: 0 <= j <= i ==> FitsInt64(SumSeq(amounts[..j]))
    {
      assert amounts[..i + 1][..i] == amounts[..i];
      if !FitsInt64(sum + amounts[i]) {
        return None;
      }
      sum := sum + amounts[i];
    }
    assert amounts[..|amounts|] == amounts;
    return Some(sum);
  }

  function AssetsOf(ps: seq<Posting>): set<Asset> {
    if ps == [] then {} else AssetsOf(ps[..|ps| - 1]) + {ps[|ps| - 1].asset}
  }

  lemma {:induction false} AssetsAreUsed(ps: seq<Posting>)
    ensures forall s :: s in AssetsOf(ps) <==> exists i :: 0 <= i < |ps| && ps[i].asset == s
  {
    if ps != [] {
      var init := ps[..|ps| - 1];
      AssetsAreUsed(init);
      forall s | s in AssetsOf(init) ensures exists i :: 0 <= i < |ps| && ps[i].asset == s {
        var i :| 0 <= i < |init| && init[i].asset == s;
        assert ps[i].asset == s;
      }
      forall i | 0 <= i < |ps| ensures ps[i].asset in AssetsOf(ps) {
        if i < |init| {
          assert init[i].asset in AssetsOf(init);
        }
      }
    }
  }

  /** The per-asset table validate fills, one posting at a time. */
  predicate Grouped(perAsset: map<Asset, seq<int>>, ps: seq<Posting>) {
    perAsset.Keys == AssetsOf(ps) && forall s :: s in perAsset ==> perAsset[s] == AmountsOf(ps, s)
  }

  function AddAmount(perAsset: map<Asset, seq<int>>, p: Posting): map<Asset, seq<int>> {
    perAsset[p.asset := (if p.asset in perAsset then perAsset[p.asset] else []) + [p.amount]]
  }

  lemma GroupOneMore(perAsset: map<Asset, seq<int>>, ps: seq<Posting>, p: Posting)
    requires Grouped(perAsset, ps)
    ensures Grouped(AddAmount(perAsset, p), ps + [p])
  {
    var qs := ps + [p];
    assert qs[..|qs| - 1] == ps;
    if p.asset !in perAsset {
      AssetsAreUsed(ps);
      forall i | 0 <= i < |ps| ensures ps[i].asset != p.asset {
        assert ps[i].asset in AssetsOf(ps);
      }
      UnusedAsset(ps, p.asset);
    }
  }

  /** Collects each asset's amounts, stopping at the first line that posts nothing. */
  method GroupByAsset(ps: seq<Posting>) returns (zero: Option<nat>, perAsset: map<Asset, seq<int>>)
    ensures zero.Some? ==> zero.value < |ps| && ps[zero.value].amount == 0
                           && forall j :: 0 <= j < zero.value ==> ps[j].amount != 0
    ensures zero.None? ==> (forall j :: 0 <= j < |ps| ==> ps[j].amount != 0) && Grouped(perAsset, ps)
  {
    perAsset := map[];
    for i := 0 to |ps|
      invariant Grouped(perAsset, ps[..i])
      invariant forall j :: 0 <= j < i ==> ps[j].amount != 0
    {
      var p := ps[i];
      if p.amount == 0 {
        return Some(i), perAsset;
      }
      GroupOneMore(perAsset, ps[..i], p);
      assert ps[..i + 1] == ps[..i] + [p];
      perAsset := AddAmount(perAsset, p);
    }
    assert ps[..|ps|] == ps;
    return None, perAsset;
  }

  predicate Cancels(ps: seq<Posting>, s: Asset) {
    TotalsFit(AmountsOf(ps, s)) && SumSeq(AmountsOf(ps, s)) == 0
  }

  lemma BalancedByAsset(perAsset: map<Asset, seq<int>>, ps: seq<Posting>)
    requires Grouped(perAsset, ps)
    ensures Balanced(ps) <==> forall s :: s in perAsset ==> Cancels(ps, s)
  {
    AssetsAreUsed(ps);
    if Balanced(ps) {
      forall s | s in perAsset ensures Cancels(ps, s) {
        var i :| 0 <= i < |ps| && ps[i].asset == s;
        assert TotalsFit(AmountsOf(ps, ps[i].asset));
      }
    }
    if forall s :: s in perAsset ==> Cancels(ps, s) {
      forall i | 0 <= i < |ps|
        ensures TotalsFit(AmountsOf(ps, ps[i].asset)) && SumSeq(AmountsOf(ps, ps[i].asset)) == 0
      {
        assert Cancels(ps, ps[i].asset);
      }
    }
  }

  /** Sums every asset, in whatever order the table gives them. */
  method CheckGroups(ps: seq<Posting>, perAsset: map<Asset, seq<int>>) returns (e: Option<ValidationError>)
    requires Grouped(perAsset, ps)
    ensures e.None? <==> Balanced(ps)
    ensures e.Some? ==> e.value.SumOverflow? || e.value.Unbalanced?
    ensures e.Some? && e.value.SumOverflow? ==> !TotalsFit(AmountsOf(ps, e.value.asset))
    ensures e.Some? && e.value.Unbalanced? ==> SumSeq(AmountsOf(ps, e.value.asset)) != 0
  {
    BalancedByAsset(perAsset, ps);
    var left := perAsset.Keys;
    while left != {}
      invariant left <= perAsset.Keys
      invariant forall s :: s in perAsset && s !in left ==> Cancels(ps, s)
      decreases left
    {
      var s :| s in left;
      var total := CheckedSum(perAsset[s]);
      if total.None? {
        assert !Cancels(ps, s);
        return Some(SumOverflow(s));
      }
      if total.value != 0 {
        assert !Cancels(ps, s);
        return Some(Unbalanced(s));
      }
      left := left - {s};
    }
    return None;
  }

  /** Accepts exactly the valid requests, and names a true fault of the others. */
  method Validate(r: Request) returns (e: Option<ValidationError>)
    ensures e.None? <==> Valid(r)
    ensures e.Some? ==> Explains(e.value, r)
  {
    if r.org == 0 { return Some(NoOrg); }
    if r.key == "" { return Some(NoKey); }
    if r.kind == "" { return Some(NoKind); }
    if r.at.Unset? { return Some(NoTime); }
    if r.postings == [] { return Some(NoPostings); }
    var zero, perAsset := GroupByAsset(r.postings);
    if zero.Some? { return Some(ZeroAmount(zero.value)); }
    e := CheckGroups(r.postings, perAsset);
  }

  /** The rows of one transaction, inserted one at a time until one is refused. */
  method InsertRows(accounts: set<Account>, balances: Index, ps: seq<Posting>) returns (rows: Rows)
    ensures rows == ApplyRows(accounts, balances, ps)
  {
    var working := balances;
    for i := 0 to |ps|
      invariant ApplyRows(accounts, working, ps[i..]) == ApplyRows(accounts, balances, ps)
    {
      assert ps[i..][0] == ps[i] && ps[i..][1..] == ps[i + 1..];
      var row := ApplyRow(accounts, working, ps[i]);
      if row.Failed? {
        return row;
      }
      working := row.balances;
    }
    return Inserted(working);
  }

  datatype Kind = MemberKind | TreasuryKind | ExternalKind | FeeExpenseKind | SponsoredReserveKind | TradingKind

  /** The account a row names, by the unique index of its kind. */
  function AccountFor(lower: string -> string, org: OrgId, kind: Kind, ownerRef: string, name: string): Account {
    match kind
    case MemberKind => Member(org, ownerRef)
    case TreasuryKind => Treasury(org, lower(name))
    case ExternalKind => External(org)
    case FeeExpenseKind => FeeExpense(org)
    case SponsoredReserveKind => SponsoredReserve(org)
    case TradingKind => Trading(org)
  }

  /** Two rows name one account exactly when they are of one org and kind and, for members, of
      one owner, and for treasuries, of one name, in whatever case it is written. */
  lemma AccountsApart(lower: string -> string, org: OrgId, kind: Kind, owner: string, name: string,
                      org': OrgId, kind': Kind, owner': string, name': string)
    ensures AccountFor(lower, org, kind, owner, name) == AccountFor(lower, org', kind', owner', name') <==>
            && org == org' && kind == kind'
            && (kind.MemberKind? ==> owner == owner')
            && (kind.TreasuryKind? ==> lower(name) == lower(name'))
  {
  }

  class Store {
    const lower: string -> string
    var accounts: set<Account>
    var txs: seq<Request>
    var balances: Index

    ghost function View(): Books
      reads this
    {
      Books(accounts, txs, balances)
    }

    constructor (lower: string -> string)
      ensures this.lower == lower && View() == EMPTY
    {
      this.lower := lower;
      accounts, txs, balances := {}, [], map[];
    }

    /** Registers an account; asking again, for a treasury in any spelling of its name,
        finds the same one and changes nothing. Exactly members have an owner. */
    method EnsureAccount(org: OrgId, kind: Kind, ownerRef: string, name: string) returns (r: Option<Account>)
      modifies this
      ensures r.None? <==> org == 0 || name == "" || (kind.MemberKind? <==> ownerRef == "")
      ensures r.None? ==> View() == old(View())
      ensures r.Some? ==> && r.value.org == org && (AllowsNegative(r.value) <==> kind.ExternalKind? || kind.TradingKind?)
                          && r.value == AccountFor(lower, org, kind, ownerRef, name)
                          && View() == old(View()).(accounts := old(accounts) + {r.value})
    {
      if org == 0 {
        return None;
      }
      if name == "" || (kind.MemberKind? <==> ownerRef == "") {
        return None;
      }
      var a := AccountFor(lower, org, kind, ownerRef, name);
      accounts := accounts + {a};
      return Some(a);
    }

    /** The key of a request is taken: the original is handed back exactly when it is this
        request, and what is answered is what Post answers, with nothing written. */
    method ResolveReplay(r: Request, i: nat) returns (o: Outcome)
      requires Ledger.Valid(r) && ColumnsOk(r) && i == IndexOf(txs, r.org, r.key) < |txs|
      ensures o.Posted? <==> Recorded(View(), r)
      ensures Ledger.Post(View(), r) == (View(), o)
    {
      hide Ledger.Valid, ColumnsOk, ApplyRows;
      if ContentOf(txs[i]) == ContentOf(r) {
        return Posted(i + 1);
      }
      return Refused(KeyReused);
    }

    /** Row by row inside one database transaction: what is written becomes the
        ledger only at commit, and a failure at any row leaves it as it was. */
    method Post(r: Request) returns (o: Outcome)
      modifies this
      ensures View() == Ledger.Post(old(View()), r).0
      ensures o == Ledger.Post(old(View()), r).1
    {
      var bad := Validate(r);
      if bad.Some? {
        return Refused(Invalid);
      }
      if !ColumnsOk(r) {
        return Refused(Constraint);
      }
      var at := IndexOf(txs, r.org, r.key);
      if at < |txs| {
        o := ResolveReplay(r, at);
        return;
      }

      var rows := InsertRows(accounts, balances, r.postings);
      if rows.Failed? {
        return Refused(rows.why);
      }
      if !SingleOrg(r) {
        return Refused(CrossOrg);
      }
      txs := txs + [r];
      balances := rows.balances;
      return Posted(|txs|);
    }

    /** An account of another org reads as zero. */
    method Balance(org: OrgId, a: Account, s: Asset) returns (held: int)
      ensures a.org == org ==> held == Held(balances, a, s)
      ensures a.org != org ==> held == 0
      ensures ValidBooks(View()) && a.org == org ==> held == EntrySum(txs, a, s)
    {
      if a.org == org && (a, s) in balances {
        return balances[(a, s)];
      }
      return 0;
    }
  }
}
