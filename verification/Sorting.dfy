/** Sorting by any total order, with nothing lost. */
module Sorting {

  ghost predicate TotalOrder<T(!new)>(leq: (T, T) -> bool) {
    && (forall a, b :: leq(a, b) || leq(b, a))
    && (forall a, b, c :: leq(a, b) && leq(b, c) ==> leq(a, c))
  }

  predicate Ordered<T>(s: seq<T>, leq: (T, T) -> bool) {
    forall i, j :: 0 <= i < j < |s| ==> leq(s[i], s[j])
  }

  function Insert<T>(s: seq<T>, x: T, leq: (T, T) -> bool): seq<T> {
    if s == [] || leq(s[|s| - 1], x) then s + [x] else Insert(s[..|s| - 1], x, leq) + [s[|s| - 1]]
  }

  lemma {:induction false} InsertSorts<T(!new)>(s: seq<T>, x: T, leq: (T, T) -> bool)
    requires TotalOrder(leq) && Ordered(s, leq)
    ensures Ordered(Insert(s, x, leq), leq) && multiset(Insert(s, x, leq)) == multiset(s) + multiset{x}
  {
    if s != [] {
      var init, last := s[..|s| - 1], s[|s| - 1];
      assert s == init + [last];
      if leq(last, x) {
        forall i | 0 <= i < |s| ensures leq(s[i], x) {
          assert i < |init| ==> leq(s[i], last);
        }
      } else {
        InsertSorts(init, x, leq);
        var r := Insert(init, x, leq);
        AllAtMost(r, init, x, last, leq);
        hide Insert;
      }
    }
  }

  lemma AllAtMost<T(!new)>(r: seq<T>, init: seq<T>, x: T, last: T, leq: (T, T) -> bool)
    requires multiset(r) == multiset(init) + multiset{x}
    requires leq(x, last) && forall i :: 0 <= i < |init| ==> leq(init[i], last)
    ensures forall i :: 0 <= i < |r| ==> leq(r[i], last)
  {
    forall i | 0 <= i < |r| ensures leq(r[i], last) {
      assert r[i] in multiset(r);
      assert r[i] == x || r[i] in multiset(init);
    }
  }

  function Arranged<T>(s: seq<T>, leq: (T, T) -> bool): seq<T> {
    if s == [] then [] else Insert(Arranged(s[..|s| - 1], leq), s[|s| - 1], leq)
  }

  lemma {:induction false} ArrangedIsOrdered<T(!new)>(s: seq<T>, leq: (T, T) -> bool)
    requires TotalOrder(leq)
    ensures Ordered(Arranged(s, leq), leq) && multiset(Arranged(s, leq)) == multiset(s)
  {
    hide TotalOrder, Insert;
    if s == [] {
      assert Ordered(Arranged(s, leq), leq);
    } else {
      hide Ordered;
      ArrangedIsOrdered(s[..|s| - 1], leq);
      InsertSorts(Arranged(s[..|s| - 1], leq), s[|s| - 1], leq);
      assert s == s[..|s| - 1] + [s[|s| - 1]];
    }
  }

  method Sort<T(!new)>(s: seq<T>, leq: (T, T) -> bool) returns (sorted: seq<T>)
    requires TotalOrder(leq)
    ensures Ordered(sorted, leq) && multiset(sorted) == multiset(s)
    ensures sorted == Arranged(s, leq)
  {
    hide TotalOrder;
    sorted := [];
    for i := 0 to |s|
      invariant sorted == Arranged(s[..i], leq)
    {
      assert s[..i + 1][..i] == s[..i];
      sorted := Insert(sorted, s[i], leq);
    }
    assert s[..|s|] == s;
    ArrangedIsOrdered(s, leq);
  }

  // ----- strict orders have one arrangement -----

  ghost predicate Antisymmetric<T(!new)>(leq: (T, T) -> bool) {
    forall a, b :: leq(a, b) && leq(b, a) ==> a == b
  }

  lemma TailOf<T>(s: seq<T>, leq: (T, T) -> bool)
    requires s != [] && Ordered(s, leq)
    ensures s == [s[0]] + s[1..] && multiset(s[1..]) == multiset(s) - multiset{s[0]} && Ordered(s[1..], leq)
  {
    assert s == [s[0]] + s[1..];
  }

  /** A first element is at most every element, on both sides. */
  lemma HeadsAgree<T(!new)>(s: seq<T>, t: seq<T>, leq: (T, T) -> bool)
    requires TotalOrder(leq) && Antisymmetric(leq) && Ordered(s, leq) && Ordered(t, leq)
    requires multiset(s) == multiset(t) && s != [] && t != []
    ensures s[0] == t[0]
  {
    assert s[0] in multiset(t) && t[0] in multiset(s);
    var i :| 0 <= i < |t| && t[i] == s[0];
    var j :| 0 <= j < |s| && s[j] == t[0];
    assert leq(t[0], t[i]) || i == 0;
    assert leq(s[0], s[j]) || j == 0;
  }

  lemma {:induction false} OrderedIsUnique<T(!new)>(s: seq<T>, t: seq<T>, leq: (T, T) -> bool)
    requires TotalOrder(leq) && Antisymmetric(leq) && Ordered(s, leq) && Ordered(t, leq) && multiset(s) == multiset(t)
    ensures s == t
    decreases |s|
  {
    hide Ordered, TotalOrder, Antisymmetric;
    assert |s| == |multiset(s)| == |multiset(t)| == |t|;
    if s != [] {
      HeadsAgree(s, t, leq);
      TailOf(s, leq);
      TailOf(t, leq);
      OrderedIsUnique(s[1..], t[1..], leq);
    }
  }

  /** So sorting forgets the order things came in, and nothing else. */
  lemma ArrangedDecides<T(!new)>(s: seq<T>, t: seq<T>, leq: (T, T) -> bool)
    requires TotalOrder(leq) && Antisymmetric(leq)
    ensures Arranged(s, leq) == Arranged(t, leq) <==> multiset(s) == multiset(t)
  {
    ArrangedIsOrdered(s, leq);
    ArrangedIsOrdered(t, leq);
    if multiset(s) == multiset(t) {
      OrderedIsUnique(Arranged(s, leq), Arranged(t, leq), leq);
    }
  }

  // ----- text -----

  /** Text in the order of its characters. */
  function AtMost(a: string, b: string): bool {
    a == "" || (b != "" && (a[0] < b[0] || (a[0] == b[0] && AtMost(a[1..], b[1..]))))
  }

  lemma {:induction false} AtMostIsTotal(a: string, b: string)
    ensures AtMost(a, b) || AtMost(b, a)
    decreases |a|
  {
    if a != "" && b != "" && a[0] == b[0] {
      AtMostIsTotal(a[1..], b[1..]);
    }
  }

  lemma {:induction false} AtMostIsTransitive(a: string, b: string, c: string)
    requires AtMost(a, b) && AtMost(b, c)
    ensures AtMost(a, c)
    decreases |a|
  {
    if a != "" && a[0] == b[0] == c[0] {
      AtMostIsTransitive(a[1..], b[1..], c[1..]);
    }
  }

  lemma TextIsOrdered()
    ensures TotalOrder(AtMost)
  {
    forall a, b ensures AtMost(a, b) || AtMost(b, a) {
      AtMostIsTotal(a, b);
    }
    forall a, b, c | AtMost(a, b) && AtMost(b, c) ensures AtMost(a, c) {
      AtMostIsTransitive(a, b, c);
    }
  }
}
