/** Horizon's operations, translated into records, and why those records replay safely. */
module Horizon {
  import opened Common
  import opened Ledger
  import opened Ingestion
  import opened IngestionRuns
  import opened Keys
  import opened StreamBooks
  import Money

  datatype AssetRef = AssetRef(kind: string, code: string, issuer: string)

  datatype Body =
    | Payment(from: string, to: string, asset: AssetRef, amount: string)
    | CreateAccount(funder: string, account: string, startingBalance: string)
    | PathPayment(payer: string, payee: string, received: AssetRef, amountReceived: string,
                  sent: AssetRef, amountSent: string)
    | AccountMerge(merged: string)
    | Other

  datatype Operation = Operation(token: string, id: string, hash: string, closedAt: Instant,
                                 successful: bool, body: Body)

  function Transfer(from: string, to: string, a: AssetRef, amount: int): Movement {
    Movement(from, to, a.kind, a.code, a.issuer, amount, false)
  }

  /** Two half-movements, because the assets differ: one left, another arrived. */
  function PathMovements(b: Body): Option<seq<Movement>>
    requires b.PathPayment?
  {
    var received, sent := Money.Parse(b.amountReceived), Money.Parse(b.amountSent);
    if received.Bad? || sent.Bad? then None
    else Some([Transfer(b.payer, "", b.sent, sent.stroops), Transfer("", b.payee, b.received, received.stroops)])
  }

  function MovementsOf(b: Body): Option<seq<Movement>> {
    match b
    case Payment(from, to, asset, text) =>
      var amount := Money.Parse(text);
      if amount.Bad? then None else Some([Transfer(from, to, asset, amount.stroops)])
    case CreateAccount(funder, account, text) =>
      var amount := Money.Parse(text);
      if amount.Bad? then None
      else if amount.stroops > 0
      then Some([Transfer(funder, account, AssetRef("native", "", ""), amount.stroops)])
      else Some([])
    case PathPayment(_, _, _, _, _, _) => PathMovements(b)
    case AccountMerge(_) => Some([])
    case Other => Some([])
  }

  /** recordOf: a record for every operation, empty for those that move nothing known. */
  function RecordOf(op: Operation): Option<Record> {
    var base := Record(op.token, "horizon:op:" + op.id, op.hash, op.closedAt, [], "");
    if !op.successful then Some(base)
    else if op.body.AccountMerge? then Some(base.(closed := op.body.merged))
    else match MovementsOf(op.body)
      case None => None
      case Some(ms) => Some(base.(movements := ms))
  }

  function RecordsOf(ops: seq<Operation>): Option<seq<Record>> {
    if ops == [] then Some([]) else
      var before := RecordsOf(ops[..|ops| - 1]);
      var last := RecordOf(ops[|ops| - 1]);
      if before.None? || last.None? then None else Some(before.value + [last.value])
  }

  // ----- what a record has to say of its operation -----

  /** This much of that asset, spelled by a text, from one address to another. */
  predicate Moves(m: Movement, from: string, to: string, asset: AssetRef, text: string) {
    && m.from == from && m.to == to && !m.unreadable
    && m.assetType == asset.kind && m.code == asset.code && m.issuer == asset.issuer
    && Money.Parse(text) == Money.Ok(m.amount)
  }

  predicate Closes(rec: Record, address: string) {
    rec.closed == address && rec.movements == []
  }

  /** A payment moves its asset from payer to payee; a creation moves native money from the
      funder, unless none; a path payment moves what was sent out of the payer, to nobody,
      and what arrived into the payee, from nobody; a merge closes the merged account; and
      nothing else moves or closes anything, nor does anything that failed. */
  predicate Tells(op: Operation, rec: Record) {
    && rec.cursor == op.token && rec.id == "horizon:op:" + op.id && rec.hash == op.hash && rec.at == op.closedAt
    && if !op.successful then Closes(rec, "") else
       match op.body
       case Payment(from, to, asset, text) =>
         rec.closed == "" && |rec.movements| == 1 && Moves(rec.movements[0], from, to, asset, text)
       case CreateAccount(funder, account, text) =>
         && rec.closed == "" && Money.Parse(text).Ok?
         && if Money.Parse(text).stroops > 0
            then |rec.movements| == 1 && Moves(rec.movements[0], funder, account, AssetRef("native", "", ""), text)
            else rec.movements == []
       case PathPayment(payer, payee, received, amountReceived, sent, amountSent) =>
         && rec.closed == "" && |rec.movements| == 2
         && Moves(rec.movements[0], payer, "", sent, amountSent)
         && Moves(rec.movements[1], "", payee, received, amountReceived)
       case AccountMerge(merged) => Closes(rec, merged)
       case Other => Closes(rec, "")
  }

  /** An amount that is read and does not parse. */
  predicate Garbled(op: Operation) {
    op.successful &&
    match op.body
    case Payment(_, _, _, text) => Money.Parse(text).Bad?
    case CreateAccount(_, _, text) => Money.Parse(text).Bad?
    case PathPayment(_, _, _, amountReceived, _, amountSent) =>
      Money.Parse(amountReceived).Bad? || Money.Parse(amountSent).Bad?
    case _ => false
  }

  lemma RecordTells(op: Operation)
    ensures RecordOf(op).None? <==> Garbled(op)
    ensures RecordOf(op).Some? ==> Tells(op, RecordOf(op).value)
  {
    hide Money.Parse;
  }

  /** Fetch: one record for every operation, in order, saying what it did; or nothing of the
      page exactly when some amount that is read does not parse. */
  method TranslatePage(ops: seq<Operation>) returns (page: Option<seq<Record>>)
    ensures page == RecordsOf(ops)
    ensures page.None? <==> exists i :: 0 <= i < |ops| && Garbled(ops[i])
    ensures page.Some? ==> |page.value| == |ops| && forall i :: 0 <= i < |ops| ==> Tells(ops[i], page.value[i])
  {
    hide RecordOf, Garbled, Tells;
    var out: seq<Record> := [];
    for i := 0 to |ops|
      invariant RecordsOf(ops[..i]) == Some(out) && |out| == i
      invariant forall j :: 0 <= j < i ==> !Garbled(ops[j]) && Tells(ops[j], out[j])
    {
      RecordTells(ops[i]);
      assert ops[..i + 1][..i] == ops[..i];
      var rec := RecordOf(ops[i]);
      if rec.None? {
        Untranslatable(ops, i);
        return None;
      }
      out := out + [rec.value];
    }
    assert ops[..|ops|] == ops;
    return Some(out);
  }

  lemma {:induction false} Untranslatable(ops: seq<Operation>, i: nat)
    requires i < |ops| && RecordOf(ops[i]).None?
    ensures RecordsOf(ops).None?
  {
    hide RecordOf;
    if i < |ops| - 1 {
      Untranslatable(ops[..|ops| - 1], i);
    }
  }

  lemma {:induction false} TranslatedAt(ops: seq<Operation>, i: nat)
    requires RecordsOf(ops).Some? && i < |ops|
    ensures |RecordsOf(ops).value| == |ops|
    ensures RecordOf(ops[i]) == Some(RecordsOf(ops).value[i])
    decreases |ops|
  {
    hide RecordOf;
    if |ops| > 1 {
      TranslatedAt(ops[..|ops| - 1], if i < |ops| - 1 then i else 0);
    } else {
      assert ops[..0] == [];
    }
  }

  // ----- what the translation guarantees -----

  /** A record that closes an address moves nothing, so it can be replayed whatever is tracked. */
  lemma RecordsReplaySafely(op: Operation, t: Tracking)
    requires RecordOf(op).Some?
    ensures CloseSafe(t, RecordOf(op).value)
  {
  }

  lemma {:induction false} PrefixedId(id: string)
    requires ':' !in id
    ensures Fields("horizon:op:" + id) == ["horizon", "op", id]
  {
    assert "horizon:op:" + id == ("horizon" + ":" + "op") + ":" + id;
    hide Fields;
    FieldsOfConcat("horizon" + ":" + "op", id);
    FieldsOfConcat("horizon", "op");
    OneField("horizon");
    OneField("op");
    OneField(id);
  }

  /** Colon-free operation ids make chain ids, and different ones make different records. */
  lemma IdsCarryOver(a: Operation, b: Operation)
    requires ':' !in a.id && ':' !in b.id && RecordOf(a).Some? && RecordOf(b).Some?
    ensures ChainId(RecordOf(a).value.id)
    ensures RecordOf(a).value.id == RecordOf(b).value.id <==> a.id == b.id
  {
    PrefixedId(a.id);
    PrefixedId(b.id);
    hide Fields;
    if RecordOf(a).value.id == RecordOf(b).value.id {
      assert Fields(RecordOf(a).value.id)[2] == a.id && Fields(RecordOf(b).value.id)[2] == b.id;
    }
  }

  /** What the network promises of an operation: a plain id, a close time, a hash, and
      amounts that are there and positive. */
  predicate Genuine(op: Operation) {
    && ':' !in op.id && op.closedAt.At? && IsHash(op.hash)
    && (MovementsOf(op.body).Some? ==>
          forall i :: 0 <= i < |MovementsOf(op.body).value| ==>
            var m := MovementsOf(op.body).value[i];
            0 < m.amount <= MAX_INT64 && NamesAsset(m))
  }

  /** A page of genuine operations is a stream every theorem about streams applies to. */
  lemma GenuinePagesQualify(ops: seq<Operation>, t: Tracking)
    requires RecordsOf(ops).Some?
    requires forall i :: 0 <= i < |ops| ==> Genuine(ops[i])
    requires forall i, j :: 0 <= i < j < |ops| ==> ops[i].id != ops[j].id
    ensures ReadableStream(t, RecordsOf(ops).value) && CloseSafeStream(t, RecordsOf(ops).value)
  {
    var stream := RecordsOf(ops).value;
    if ops != [] {
      TranslatedAt(ops, 0);
    }
    assert |stream| == |ops|;
    forall k | 0 <= k < |stream|
      ensures ReadableRecord(TrackedAfter(t, stream[..k]), stream[k])
      ensures CloseSafe(TrackedAfter(t, stream[..k]), stream[k])
    {
      TranslatedAt(ops, k);
      RecordsReplaySafely(ops[k], TrackedAfter(t, stream[..k]));
      GenuineRecord(ops[k], TrackedAfter(t, stream[..k]));
    }
    hide RecordsOf, RecordOf, Genuine, ReadableRecord, CloseSafe;
    forall i, j | 0 <= i < j < |stream| ensures stream[i].id != stream[j].id {
      TranslatedAt(ops, i);
      TranslatedAt(ops, j);
      GenuineId(ops[i]);
      GenuineId(ops[j]);
      IdsCarryOver(ops[i], ops[j]);
    }
  }

  lemma GenuineId(op: Operation)
    requires Genuine(op)
    ensures ':' !in op.id
  {
  }

  lemma GenuineRecord(op: Operation, t: Tracking)
    requires Genuine(op) && RecordOf(op).Some?
    ensures ReadableRecord(t, RecordOf(op).value)
  {
    PrefixedId(op.id);
    hide Fields, Money.Parse;
    var rec := RecordOf(op).value;
    forall n | 0 <= n < |rec.movements| ensures Readable(t, rec.movements[n]) {
      assert rec.movements[n] == MovementsOf(op.body).value[n];
    }
  }
}
