/**
 Which of an account's signers are on record for an envelope, and what they weigh together.

 Hints and signature checks are parameters: any functions at all.
 */
module Signatures {
  import opened Common
  import opened SetSums
  import opened Multisig
  import Sorting

  datatype Crypto = Crypto(hint: string -> string, verify: (string, string, string) -> bool)

  datatype Decorated = Decorated(hint: string, signature: string)

  /** A stored approval. */
  datatype Row = Row(signer: string, signature: string)

  type Weights = map<string, Weight>

  /** The signers of an account as a signature check wants them, its own key included. */
  function Summary(current: SignerSet, account: string): Weights {
    if current.master > 0 then current.signers[account := current.master] else current.signers
  }

  /** The account's own key counts with its master weight, where it has any, and the signers
      with theirs. */
  lemma SummaryTells(current: SignerSet, account: string)
    ensures var m := Summary(current, account);
            && (current.master > 0 ==> account in m && m[account] == current.master)
            && (forall a :: a in m && (a != account || current.master == 0) ==>
                              a in current.signers && m[a] == current.signers[a])
            && (forall a :: a in current.signers ==> a in m)
  {
  }

  // ----- attributing signatures -----

  predicate Counts(c: Crypto, hash: string, sig: Decorated, a: string) {
    c.hint(a) == sig.hint && c.verify(a, hash, sig.signature)
  }

  predicate Supported(c: Crypto, hash: string, sigs: seq<Decorated>, a: string) {
    exists i :: 0 <= i < |sigs| && Counts(c, hash, sigs[i], a)
  }

  /** No signature checks out under the keys of two of these signers. */
  predicate Unshared(c: Crypto, hash: string, sigs: seq<Decorated>, signers: Weights) {
    forall i, a, b | 0 <= i < |sigs| && a in signers && b in signers ::
      Counts(c, hash, sigs[i], a) && Counts(c, hash, sigs[i], b) ==> a == b
  }

  /** One signature, given to the first signer not yet counted that it checks out under. */
  method AttributeOne(c: Crypto, hash: string, sig: Decorated, signers: Weights, signed: Weights) returns (next: Weights)
    ensures forall a :: a in signed ==> a in next && next[a] == signed[a]
    ensures forall a :: a in next && a !in signed ==> a in signers && next[a] == signers[a] && Counts(c, hash, sig, a)
    ensures |next| <= |signed| + 1
    ensures (exists a :: a in signers && Counts(c, hash, sig, a)) ==>
              exists a :: a in next && a in signers && Counts(c, hash, sig, a)
  {
    var left := signers.Keys;
    while left != {}
      invariant left <= signers.Keys
      invariant forall a :: a in signers && a !in left ==> a in signed || !Counts(c, hash, sig, a)
      decreases left
    {
      var a :| a in left;
      left := left - {a};
      if a in signed || c.hint(a) != sig.hint || !c.verify(a, hash, sig.signature) {
        continue;
      }
      next := signed[a := signers[a]];
      assert next.Keys == signed.Keys + {a};
      return;
    }
    next := signed;
  }

  /** Only current signers with a signature that checks out, each once and at its current
      weight; all of them, where no signature checks out under two keys. */
  method Attribute(c: Crypto, hash: string, sigs: seq<Decorated>, signers: Weights) returns (signed: Option<Weights>)
    ensures signed.None? <==> signers == map[]
    ensures signed.Some? ==> forall a :: a in signed.value ==>
                                           a in signers && signed.value[a] == signers[a] && Supported(c, hash, sigs, a)
    ensures signed.Some? && Unshared(c, hash, sigs, signers) ==>
              forall a :: a in signers && Supported(c, hash, sigs, a) ==> a in signed.value
    ensures signed.Some? ==> |signed.value| <= |sigs|
  {
    if signers == map[] {
      return None;
    }
    var found: Weights := map[];
    for i := 0 to |sigs|
      invariant forall a :: a in found ==> a in signers && found[a] == signers[a] && Supported(c, hash, sigs, a)
      invariant Unshared(c, hash, sigs, signers) ==>
                  forall a, j :: a in signers && 0 <= j < i && Counts(c, hash, sigs[j], a) ==> a in found
      invariant |found| <= i
    {
      found := AttributeOne(c, hash, sigs[i], signers, found);
    }
    return Some(found);
  }

  // ----- the stored rows -----

  /** Some stored signature checks out under this key. */
  predicate Backed(c: Crypto, hash: string, rows: seq<Row>, a: string) {
    exists i :: 0 <= i < |rows| && Counts(c, hash, Decorate(c, rows[i]), a)
  }

  function Decorate(c: Crypto, r: Row): Decorated {
    Decorated(c.hint(r.signer), r.signature)
  }

  function DecorateAll(c: Crypto, rows: seq<Row>): (sigs: seq<Decorated>)
    ensures |sigs| == |rows| && forall i :: 0 <= i < |rows| ==> sigs[i] == Decorate(c, rows[i])
  {
    seq(|rows|, i requires 0 <= i < |rows| => Decorate(c, rows[i]))
  }

  lemma SupportedIsBacked(c: Crypto, hash: string, rows: seq<Row>, a: string)
    ensures Supported(c, hash, DecorateAll(c, rows), a) <==> Backed(c, hash, rows, a)
  {
    var sigs := DecorateAll(c, rows);
    if Supported(c, hash, sigs, a) {
      var i :| 0 <= i < |sigs| && Counts(c, hash, sigs[i], a);
      assert Counts(c, hash, Decorate(c, rows[i]), a);
    }
    if Backed(c, hash, rows, a) {
      var i :| 0 <= i < |rows| && Counts(c, hash, Decorate(c, rows[i]), a);
      assert Counts(c, hash, sigs[i], a);
    }
  }

  /** Which signers are on record, by checking the stored signatures and not trusting the rows. */
  method Rebuild(c: Crypto, hash: string, rows: seq<Row>, signers: Weights) returns (signed: Option<Weights>)
    ensures signed.None? <==> signers == map[] && rows != []
    ensures signed.Some? ==> forall a :: a in signed.value ==>
                                           a in signers && signed.value[a] == signers[a] && Backed(c, hash, rows, a)
    ensures signed.Some? && Unshared(c, hash, DecorateAll(c, rows), signers) ==>
              forall a :: a in signers && Backed(c, hash, rows, a) ==> a in signed.value
  {
    if |rows| == 0 {
      return Some(map[]);
    }
    var sigs: seq<Decorated> := [];
    for i := 0 to |rows|
      invariant |sigs| == i && forall j :: 0 <= j < i ==> sigs[j] == Decorate(c, rows[j])
    {
      sigs := sigs + [Decorated(c.hint(rows[i].signer), rows[i].signature)];
    }
    assert sigs == DecorateAll(c, rows);
    signed := Attribute(c, hash, sigs, signers);
    forall a ensures Supported(c, hash, sigs, a) <==> Backed(c, hash, rows, a) {
      SupportedIsBacked(c, hash, rows, a);
    }
  }

  // ----- weight on record -----

  ghost function Share(c: Crypto, hash: string, rows: seq<Row>, signers: Weights): string -> int {
    a => if a in signers && Backed(c, hash, rows, a) then signers[a] else 0
  }

  /** The weight of the distinct current signers with a stored signature that checks out. */
  ghost function Have(c: Crypto, hash: string, rows: seq<Row>, signers: Weights): int {
    Sum(signers.Keys, Share(c, hash, rows, signers))
  }

  /** Enough weight for a payment, against a threshold above zero. */
  ghost predicate Enough(c: Crypto, hash: string, rows: seq<Row>, current: SignerSet, account: string) {
    0 < current.medium <= Have(c, hash, rows, Summary(current, account))
  }

  /** What the network asks of an envelope that moves money: some weight, and the medium
      threshold. */
  ghost predicate Authorised(c: Crypto, hash: string, rows: seq<Row>, current: SignerSet, account: string) {
    var have := Have(c, hash, rows, Summary(current, account));
    0 < have && current.medium <= have
  }

  predicate Among(rows: seq<Row>, more: seq<Row>) {
    forall r :: r in rows ==> r in more
  }

  lemma AmongBacks(c: Crypto, hash: string, rows: seq<Row>, more: seq<Row>, a: string)
    requires Among(rows, more) && Backed(c, hash, rows, a)
    ensures Backed(c, hash, more, a)
  {
    var i :| 0 <= i < |rows| && Counts(c, hash, Decorate(c, rows[i]), a);
    assert rows[i] in more;
    var j :| 0 <= j < |more| && more[j] == rows[i];
  }

  /** More rows never weigh less. */
  lemma MoreRows(c: Crypto, hash: string, rows: seq<Row>, more: seq<Row>, signers: Weights)
    requires Among(rows, more)
    ensures Have(c, hash, rows, signers) <= Have(c, hash, more, signers)
  {
    forall a | a in signers
      ensures Share(c, hash, rows, signers)(a) <= Share(c, hash, more, signers)(a)
    {
      if Backed(c, hash, rows, a) {
        AmongBacks(c, hash, rows, more, a);
      }
    }
    SumAtMost(signers.Keys, Share(c, hash, rows, signers), Share(c, hash, more, signers));
  }

  /** Nothing is authorised that no current signer signed. */
  lemma AuthorisedIsSigned(c: Crypto, hash: string, rows: seq<Row>, current: SignerSet, account: string)
    requires Authorised(c, hash, rows, current, account)
    ensures exists a, r :: a in Summary(current, account) && r in rows && Counts(c, hash, Decorate(c, r), a)
  {
    var signers := Summary(current, account);
    if forall a :: a in signers ==> !Backed(c, hash, rows, a) {
      SumZero(signers.Keys, Share(c, hash, rows, signers));
    } else {
      var a :| a in signers && Backed(c, hash, rows, a);
      var i :| 0 <= i < |rows| && Counts(c, hash, Decorate(c, rows[i]), a);
      assert rows[i] in rows;
    }
  }

  /** A row whose signature checks out under no current signer, such as one whose signer was
      removed, counts for nothing. */
  lemma StrangersCountNothing(c: Crypto, hash: string, rows: seq<Row>, row: Row, signers: Weights)
    requires forall a :: a in signers ==> !Counts(c, hash, Decorate(c, row), a)
    ensures Have(c, hash, rows + [row], signers) == Have(c, hash, rows, signers)
  {
    var more := rows + [row];
    forall a | a in signers ensures Backed(c, hash, more, a) <==> Backed(c, hash, rows, a) {
      if Backed(c, hash, rows, a) {
        var i :| 0 <= i < |rows| && Counts(c, hash, Decorate(c, rows[i]), a);
        assert more[i] == rows[i];
      }
      if Backed(c, hash, more, a) {
        var i :| 0 <= i < |more| && Counts(c, hash, Decorate(c, more[i]), a);
        assert i < |rows| ==> rows[i] == more[i];
      }
    }
    SumAgree(signers.Keys, Share(c, hash, more, signers), Share(c, hash, rows, signers));
  }

  datatype View = View(have: int, need: int, signed: seq<string>, missing: seq<string>)

  predicate Ready(v: View) {
    v.need > 0 && v.have >= v.need
  }

  /** Every current signer is in exactly one of the two lists, once. */
  ghost predicate Partition(signed: seq<string>, missing: seq<string>, signers: set<string>) {
    multiset(signed) + multiset(missing) == multiset(signers)
  }

  ghost function Listed(signers: Weights, names: seq<string>): string -> int {
    a => if a in signers && a in names then signers[a] else 0
  }

  /** A signing state that is true of the rows and the account: signed and missing partition
      the current signers, each signed one is backed by a stored signature, and the weight
      is theirs. */
  ghost predicate IsView(c: Crypto, hash: string, rows: seq<Row>, current: SignerSet, account: string, v: View) {
    var signers := Summary(current, account);
    && v.need == current.medium
    && Partition(v.signed, v.missing, signers.Keys)
    && (forall a :: a in v.signed ==> Backed(c, hash, rows, a))
    && v.have == Sum(signers.Keys, Listed(signers, v.signed))
  }

  /** No such state overstates the weight on record. */
  lemma ViewIsOnRecord(c: Crypto, hash: string, rows: seq<Row>, current: SignerSet, account: string, v: View)
    requires IsView(c, hash, rows, current, account, v)
    ensures v.have <= Have(c, hash, rows, Summary(current, account))
    ensures Ready(v) ==> Enough(c, hash, rows, current, account)
  {
    var signers := Summary(current, account);
    SumAtMost(signers.Keys, Listed(signers, v.signed), Share(c, hash, rows, signers));
  }

  /** One that leaves nobody out is ready exactly when there is enough weight on record. */
  lemma FullViewIsExact(c: Crypto, hash: string, rows: seq<Row>, current: SignerSet, account: string, v: View)
    requires IsView(c, hash, rows, current, account, v)
    requires forall a :: a in Summary(current, account) && Backed(c, hash, rows, a) ==> a in v.signed
    ensures v.have == Have(c, hash, rows, Summary(current, account))
    ensures Ready(v) <==> Enough(c, hash, rows, current, account)
  {
    var signers := Summary(current, account);
    SumAgree(signers.Keys, Listed(signers, v.signed), Share(c, hash, rows, signers));
  }

  lemma {:induction false} ListOf(s: set<string>) returns (names: seq<string>)
    ensures multiset(names) == multiset(s)
    decreases s
  {
    if s == {} {
      names := [];
    } else {
      var a :| a in s;
      var rest := ListOf(s - {a});
      names := [a] + rest;
      assert multiset(s) == multiset(s - {a}) + multiset{a};
    }
  }

  /** Where there is enough weight on record, some true signing state is ready. */
  lemma ReadyViewExists(c: Crypto, hash: string, rows: seq<Row>, current: SignerSet, account: string) returns (v: View)
    requires Enough(c, hash, rows, current, account)
    ensures IsView(c, hash, rows, current, account, v) && Ready(v)
  {
    var signers := Summary(current, account);
    var backed := set a | a in signers && Backed(c, hash, rows, a);
    var yes := ListOf(backed);
    var no := ListOf(signers.Keys - backed);
    v := View(Sum(signers.Keys, Listed(signers, yes)), current.medium, yes, no);
    SameMembers(yes, backed);
    assert multiset(backed) + multiset(signers.Keys - backed) == multiset(signers.Keys);
    FullViewIsExact(c, hash, rows, current, account, v);
  }

  lemma SameMembers(names: seq<string>, s: set<string>)
    requires multiset(names) == multiset(s)
    ensures forall a :: a in names <==> a in s
  {
    forall a ensures a in names <==> a in s {
      assert a in names <==> a in multiset(names);
      assert a in s <==> a in multiset(s);
    }
  }

  /**
   The signing state of a proposal, true of the rows and the account, its lists sorted; and
   exact where no signature checks out under two keys.
   */
  method ViewOf(c: Crypto, hash: string, rows: seq<Row>, current: SignerSet, account: string) returns (v: Option<View>)
    ensures v.None? <==> Summary(current, account) == map[] && rows != []
    ensures v.Some? ==> IsView(c, hash, rows, current, account, v.value)
    ensures v.Some? ==> Sorting.Ordered(v.value.signed, Sorting.AtMost) && Sorting.Ordered(v.value.missing, Sorting.AtMost)
    ensures v.Some? && Ready(v.value) ==> Enough(c, hash, rows, current, account)
    ensures v.Some? && Unshared(c, hash, DecorateAll(c, rows), Summary(current, account)) ==>
              && v.value.have == Have(c, hash, rows, Summary(current, account))
              && (forall a :: a in v.value.missing ==> !Backed(c, hash, rows, a))
              && (Ready(v.value) <==> Enough(c, hash, rows, current, account))
  {
    var summary := Summary(current, account);
    var signed := Rebuild(c, hash, rows, summary);
    if signed.None? {
      return None;
    }
    var have, yes, no := Tally(summary, signed.value);
    Sorting.TextIsOrdered();
    hide Sorting.AtMost, Sorting.TotalOrder, Sorting.Ordered, Counts, Backed, Unshared, Have;
    var sortedYes := Sorting.Sort(yes, Sorting.AtMost);
    var sortedNo := Sorting.Sort(no, Sorting.AtMost);
    var view := View(have, current.medium, sortedYes, sortedNo);
    SortedView(c, hash, rows, current, account, signed.value, yes, no, view);
    return Some(view);
  }

  /** The loop over the signers: weight and both lists. */
  method Tally(signers: Weights, signed: Weights) returns (have: int, yes: seq<string>, no: seq<string>)
    ensures have == Sum(signers.Keys, Listed(signers, yes))
    ensures Partition(yes, no, signers.Keys)
    ensures forall a :: a in yes ==> a in signed
    ensures forall a :: a in no ==> a !in signed
  {
    have, yes, no := 0, [], [];
    var left := signers.Keys;
    SumZero(signers.Keys, Listed(signers, []));
    while left != {}
      invariant left <= signers.Keys
      invariant have == Sum(signers.Keys, Listed(signers, yes))
      invariant multiset(yes) + multiset(no) == multiset(signers.Keys - left)
      invariant forall a :: a in yes ==> a in signed && a !in left
      invariant forall a :: a in no ==> a !in signed
      decreases left
    {
      var a :| a in left;
      assert signers.Keys - (left - {a}) == (signers.Keys - left) + {a};
      assert multiset((signers.Keys - left) + {a}) == multiset(signers.Keys - left) + multiset{a};
      if a in signed {
        OneMoreSigned(signers, yes, a);
        have := have + signers[a];
        yes := yes + [a];
      } else {
        no := no + [a];
      }
      left := left - {a};
    }
    assert signers.Keys - left == signers.Keys;
  }

  lemma OneMoreSigned(signers: Weights, yes: seq<string>, a: string)
    requires a in signers && a !in yes
    ensures Sum(signers.Keys, Listed(signers, yes + [a])) == Sum(signers.Keys, Listed(signers, yes)) + signers[a]
  {
    var f, g := Listed(signers, yes), Listed(signers, yes + [a]);
    SumRemove(signers.Keys, f, a);
    SumRemove(signers.Keys, g, a);
    SumAgree(signers.Keys - {a}, f, g);
  }

  lemma SortedView(c: Crypto, hash: string, rows: seq<Row>, current: SignerSet, account: string, signed: Weights,
                   yes: seq<string>, no: seq<string>, v: View)
    requires var signers := Summary(current, account);
             && (forall a :: a in signed ==> a in signers && Backed(c, hash, rows, a))
             && Partition(yes, no, signers.Keys) && v.have == Sum(signers.Keys, Listed(signers, yes))
             && (forall a :: a in yes ==> a in signed) && (forall a :: a in no ==> a !in signed)
    requires v.need == current.medium && multiset(v.signed) == multiset(yes) && multiset(v.missing) == multiset(no)
    ensures IsView(c, hash, rows, current, account, v)
    ensures Ready(v) ==> Enough(c, hash, rows, current, account)
    ensures (forall a :: a in Summary(current, account) && Backed(c, hash, rows, a) ==> a in signed) ==>
              && v.have == Have(c, hash, rows, Summary(current, account))
              && (forall a :: a in v.missing ==> !Backed(c, hash, rows, a))
              && (Ready(v) <==> Enough(c, hash, rows, current, account))
  {
    var signers := Summary(current, account);
    SameNames(v.signed, yes);
    SameNames(v.missing, no);
    SumAgree(signers.Keys, Listed(signers, yes), Listed(signers, v.signed));
    ViewIsOnRecord(c, hash, rows, current, account, v);
    forall a | a in signers ensures a in yes || a in no {
      assert a in multiset(signers.Keys);
      assert a in multiset(yes) || a in multiset(no);
    }
    forall a | a in no ensures a in signers {
      assert a in multiset(no);
      assert a in multiset(signers.Keys);
    }
    if forall a :: a in signers && Backed(c, hash, rows, a) ==> a in signed {
      FullViewIsExact(c, hash, rows, current, account, v);
    }
  }

  lemma SameNames(s: seq<string>, t: seq<string>)
    requires multiset(s) == multiset(t)
    ensures forall a :: a in s <==> a in t
  {
    forall a ensures a in s <==> a in t {
      assert a in s <==> a in multiset(s);
      assert a in t <==> a in multiset(t);
    }
  }
}
