/**
 Idempotency keys. A key is the chain's identifier of the record, then the index of
 the movement when there are several, then the shortfall when it names an opening
 balance. Split at its colons a key gives all three back.
 */
module Keys {
  import opened Common
  import opened Decimal
  import opened Ingestion
  import opened Splitting

  /** The text between colons. */
  function Fields(s: string): (f: seq<string>)
    ensures |f| > 0
  {
    Split(s, ':')
  }

  lemma FieldsAreText(s: string, t: string)
    ensures Fields(s) == Fields(t) <==> s == t
  {
    JoinInvertsSplit(s, ':');
    JoinInvertsSplit(t, ':');
  }

  lemma FieldsOfConcat(a: string, b: string)
    ensures Fields(a + ":" + b) == Fields(a) + Fields(b)
  {
    SplitConcat(a, ':', b);
  }

  lemma OneField(s: string)
    requires ':' !in s
    ensures Fields(s) == [s]
  {
    OnePart(s, ':');
  }

  lemma ItoaIsOneField(n: int)
    ensures Fields(Itoa(n)) == [Itoa(n)]
  {
    OneField(Itoa(n));
  }

  /** The three parts a key is made of. */
  datatype Tag = Tag(id: string, movement: Option<nat>, opening: Option<int>)

  function Render(t: Tag): string {
    t.id + (if t.movement.Some? then ":" + Itoa(t.movement.value) else "") +
    (if t.opening.Some? then ":opening:" + Itoa(t.opening.value) else "")
  }

  /** Both sources name records by a two-part prefix and an identifier free of colons. */
  predicate ChainId(id: string) {
    |Fields(id)| == 3
  }

  lemma MovementFields(id: string, n: nat)
    ensures Fields(id + ":" + Itoa(n)) == Fields(id) + [Itoa(n)]
  {
    hide Fields;
    FieldsOfConcat(id, Itoa(n));
    ItoaIsOneField(n);
  }

  lemma OpeningFields(head: string, short: int)
    ensures Fields(head + ":opening:" + Itoa(short)) == Fields(head) + ["opening", Itoa(short)]
  {
    hide Fields;
    var amount := Itoa(short);
    assert head + ":opening:" + amount == (head + ":" + "opening") + ":" + amount;
    FieldsOfConcat(head + ":" + "opening", amount);
    FieldsOfConcat(head, "opening");
    OneField("opening");
    ItoaIsOneField(short);
    assert Fields(head) + ["opening"] + [amount] == Fields(head) + ["opening", amount];
  }

  function Head(t: Tag): string {
    t.id + (if t.movement.Some? then ":" + Itoa(t.movement.value) else "")
  }

  lemma HeadFields(t: Tag)
    ensures Fields(Head(t)) == Fields(t.id) + (if t.movement.Some? then [Itoa(t.movement.value)] else [])
  {
    hide Fields;
    if t.movement.Some? {
      MovementFields(t.id, t.movement.value);
      assert Head(t) == t.id + ":" + Itoa(t.movement.value);
    } else {
      assert Head(t) == t.id;
      assert Fields(t.id) + [] == Fields(t.id);
    }
  }

  lemma RenderedFields(t: Tag)
    ensures Fields(Render(t)) ==
            Fields(t.id) + (if t.movement.Some? then [Itoa(t.movement.value)] else []) +
            (if t.opening.Some? then ["opening", Itoa(t.opening.value)] else [])
  {
    hide Fields;
    HeadFields(t);
    if t.opening.Some? {
      OpeningFields(Head(t), t.opening.value);
      assert Render(t) == Head(t) + ":opening:" + Itoa(t.opening.value);
    } else {
      assert Render(t) == Head(t);
      assert Fields(Head(t)) + [] == Fields(Head(t));
    }
  }

  /** Keys are injective over record, movement index and opening amount. */
  lemma KeysAreInjective(t: Tag, u: Tag)
    requires ChainId(t.id) && ChainId(u.id)
    ensures Render(t) == Render(u) <==> t == u
  {
    if Render(t) == Render(u) {
      RenderedFields(t);
      RenderedFields(u);
      var f := Fields(Render(t));
      assert Fields(t.id) == f[..3] == Fields(u.id);
      FieldsAreText(t.id, u.id);
      if t.movement.Some? && u.movement.Some? {
        assert f[3] == Itoa(t.movement.value) == Itoa(u.movement.value);
        ItoaInjective(t.movement.value, u.movement.value);
      }
      if t.opening.Some? && u.opening.Some? {
        assert f[|f| - 1] == Itoa(t.opening.value) == Itoa(u.opening.value);
        ItoaInjective(t.opening.value, u.opening.value);
      }
    }
  }

  function MovementTag(rec: Record, n: nat): Tag {
    Tag(rec.id, if |rec.movements| > 1 then Some(n) else None, None)
  }

  lemma KeysAreRendered(rec: Record, n: nat, short: int)
    ensures MovementKey(rec, n) == Render(MovementTag(rec, n))
    ensures OpeningKey(MovementKey(rec, n), short) == Render(MovementTag(rec, n).(opening := Some(short)))
  {
    var head := rec.id + ":" + Itoa(n);
    if |rec.movements| > 1 {
      assert head + "" == head;
      assert rec.id + (":" + Itoa(n)) == head;
    } else {
      assert rec.id + "" == rec.id;
    }
  }

  /** Which movement a key belongs to, whether it names the movement or its opening. */
  function Owner(key: string): seq<string> {
    var f := Fields(key);
    if |f| <= 4 then f else f[..|f| - 2]
  }

  lemma OwnerOfKeys(rec: Record, n: nat, short: int)
    requires ChainId(rec.id)
    ensures Owner(MovementKey(rec, n)) == Fields(MovementKey(rec, n))
    ensures Owner(OpeningKey(MovementKey(rec, n), short)) == Owner(MovementKey(rec, n))
    ensures |Owner(MovementKey(rec, n))| == (if |rec.movements| > 1 then 4 else 3)
    ensures Owner(MovementKey(rec, n))[..3] == Fields(rec.id)
  {
    KeysAreRendered(rec, n, short);
    RenderedFields(MovementTag(rec, n));
    RenderedFields(MovementTag(rec, n).(opening := Some(short)));
  }

  lemma OwnersDiffer(r: Record, m: nat, s: Record, n: nat)
    requires ChainId(r.id) && ChainId(s.id)
    requires r.id != s.id || (r == s && m != n && |r.movements| > 1)
    ensures Owner(MovementKey(r, m)) != Owner(MovementKey(s, n))
  {
    OwnerOfKeys(r, m, 0);
    OwnerOfKeys(s, n, 0);
    FieldsAreText(MovementKey(r, m), MovementKey(s, n));
    KeysAreRendered(r, m, 0);
    KeysAreRendered(s, n, 0);
    KeysAreInjective(MovementTag(r, m), MovementTag(s, n));
  }
}
