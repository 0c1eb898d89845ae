/**
 Paying several people at once: the operations of a payroll, the description read back out
 of them, and the total an approver is shown.
 */
module Payroll {
  import opened Common
  import opened Batches
  import Money
  import Canonical

  const CHUNK_SIZE := 95
  const MAX_OPERATIONS := 100

  datatype Asset = Native | Credit(code: string, issuer: string)

  datatype Line = Line(to: string, asset: Option<Asset>, amount: int)

  datatype Payment = Payment(source: string, destination: string, amount: string, asset: Option<Asset>)

  datatype BuildError = BadSender | NoLines | TooManyLines | BadAddress(line: nat) | NotPositive(line: nat) | NoAsset(line: nat)

  datatype Built = Ops(ops: seq<Payment>) | Unbuilt(error: BuildError)

  // ----- building -----

  function LineVerdict(valid: string -> bool, l: Line, n: nat): Option<BuildError> {
    if !valid(l.to) then Some(BadAddress(n))
    else if l.amount <= 0 then Some(NotPositive(n))
    else if l.asset.None? then Some(NoAsset(n))
    else None
  }

  function PaymentFor(from: string, l: Line): Payment {
    Payment(from, l.to, Money.Format(l.amount), l.asset)
  }

  predicate LineOk(valid: string -> bool, l: Line) {
    valid(l.to) && l.amount > 0 && l.asset.Some?
  }

  /** What is wrong with a line, and which line it is: the first thing, in this order. */
  predicate IsWrong(valid: string -> bool, l: Line, n: nat, error: BuildError) {
    || (error == BadAddress(n) && !valid(l.to))
    || (error == NotPositive(n) && valid(l.to) && l.amount <= 0)
    || (error == NoAsset(n) && valid(l.to) && l.amount > 0 && l.asset.None?)
  }

  /** Operations in the order of the lines, each naming its sender; the first bad line is named. */
  method BuildPayroll(valid: string -> bool, from: string, lines: seq<Line>) returns (r: Built)
    ensures r.Ops? <==> valid(from) && 1 <= |lines| <= 95 && forall i :: 0 <= i < |lines| ==> LineOk(valid, lines[i])
    ensures r.Ops? ==> && |r.ops| == |lines|
                       && forall i :: 0 <= i < |lines| ==>
                            r.ops[i] == Payment(from, lines[i].to, Money.Format(lines[i].amount), lines[i].asset)
    ensures r == Unbuilt(BadSender) <==> !valid(from)
    ensures r == Unbuilt(NoLines) <==> valid(from) && lines == []
    ensures r == Unbuilt(TooManyLines) <==> valid(from) && |lines| > 95
    ensures r.Unbuilt? && valid(from) && 1 <= |lines| <= 95 ==>
              exists i :: 0 <= i < |lines| && IsWrong(valid, lines[i], i + 1, r.error)
                          && forall j :: 0 <= j < i ==> LineOk(valid, lines[j])
  {
    hide Money.Format;
    if !valid(from) {
      return Unbuilt(BadSender);
    }
    if |lines| == 0 {
      return Unbuilt(NoLines);
    }
    if |lines| > CHUNK_SIZE {
      return Unbuilt(TooManyLines);
    }
    var ops: seq<Payment> := [];
    for i := 0 to |lines|
      invariant |ops| == i && forall j :: 0 <= j < i ==> LineOk(valid, lines[j])
      invariant forall j :: 0 <= j < i ==> ops[j] == PaymentFor(from, lines[j])
    {
      var bad := LineVerdict(valid, lines[i], i + 1);
      if bad.Some? {
        assert IsWrong(valid, lines[i], i + 1, bad.value);
        return Unbuilt(bad.value);
      }
      ops := ops + [PaymentFor(from, lines[i])];
    }
    return Ops(ops);
  }

  // ----- batches too large for one transaction -----

  function Joined(chunks: seq<seq<Line>>): seq<Line> {
    if chunks == [] then [] else Joined(chunks[..|chunks| - 1]) + chunks[|chunks| - 1]
  }

  /** Chunks in order that lose nothing, each full but perhaps the last, none too large to build. */
  method SplitPayroll(lines: seq<Line>, perTx: int) returns (chunks: seq<seq<Line>>)
    ensures Joined(chunks) == lines
    ensures forall i :: 0 <= i < |chunks| ==> 1 <= |chunks[i]| <= CHUNK_SIZE
    ensures var size := if 0 < perTx <= CHUNK_SIZE then perTx else CHUNK_SIZE;
            forall i :: 0 <= i < |chunks| ==> |chunks[i]| <= size && (i < |chunks| - 1 ==> |chunks[i]| == size)
  {
    var size := perTx;
    if perTx <= 0 || perTx > CHUNK_SIZE {
      size := CHUNK_SIZE;
    }
    chunks := [];
    var start := 0;
    while start < |lines|
      invariant 0 <= start <= |lines|
      invariant Joined(chunks) == lines[..start]
      invariant forall i :: 0 <= i < |chunks| ==> 1 <= |chunks[i]| <= size
      invariant forall i :: 0 <= i < |chunks| && (start < |lines| || i < |chunks| - 1) ==> |chunks[i]| == size
    {
      var end := start + size;
      if end > |lines| {
        end := |lines|;
      }
      ghost var before := chunks;
      chunks := chunks + [lines[start..end]];
      assert chunks[..|chunks| - 1] == before;
      assert lines[..start] + lines[start..end] == lines[..end];
      start := end;
    }
    assert lines[..start] == lines;
  }

  /** What the lines in one asset come to, by the text of the asset. */
  function SumFor(lines: seq<Line>, asset: string): int {
    if lines == [] then 0 else
      var last := lines[|lines| - 1];
      SumFor(lines[..|lines| - 1], asset) + if Written(last.asset, asset) then last.amount else 0
  }

  /** A line whose asset has no name, or that takes its asset's total out of range. */
  ghost predicate Spoils(lines: seq<Line>, i: nat)
    requires i < |lines|
  {
    || !Describable(lines[i].asset)
    || exists text :: Written(lines[i].asset, text) && !FitsInt64(SumFor(lines[..i + 1], text))
  }

  lemma AddShows(s: int, t: int)
    requires FitsInt64(s) && FitsInt64(t)
    ensures var sum := Wrap64(s + t);
            (s > 0 && t > 0 && sum < 0) || (s < 0 && t < 0 && sum >= 0) <==> !FitsInt64(s + t)
    ensures FitsInt64(s + t) ==> Wrap64(s + t) == s + t
  {
  }

  predicate Uses(lines: seq<Line>, asset: string) {
    exists i :: 0 <= i < |lines| && Written(lines[i].asset, asset)
  }

  function TotalIn(sums: map<string, int>, asset: string): int {
    if asset in sums then sums[asset] else 0
  }

  /** One total for each asset in use, and the exact one. */
  ghost predicate Tally(sums: map<string, int>, lines: seq<Line>) {
    && (forall k :: k in sums <==> Uses(lines, k))
    && (forall k :: TotalIn(sums, k) == SumFor(lines, k))
  }

  lemma UsesMore(lines: seq<Line>, i: nat, key: string, k: string)
    requires i < |lines| && Written(lines[i].asset, key)
    ensures Uses(lines[..i + 1], k) <==> k == key || Uses(lines[..i], k)
  {
    WrittenOneWay(lines[i].asset, key);
    hide Written;
    var before, after := lines[..i], lines[..i + 1];
    if Uses(before, k) {
      var j :| 0 <= j < |before| && Written(before[j].asset, k);
      assert after[j] == before[j];
    }
    if Uses(after, k) && k != key {
      var j :| 0 <= j < |after| && Written(after[j].asset, k);
      assert j == i || before[j] == after[j];
    }
    assert after[i] == lines[i];
  }

  lemma SumMore(lines: seq<Line>, i: nat, key: string, k: string)
    requires i < |lines| && Written(lines[i].asset, key)
    ensures SumFor(lines[..i + 1], k) == SumFor(lines[..i], k) + if k == key then lines[i].amount else 0
  {
    WrittenOneWay(lines[i].asset, key);
    hide Written;
    assert lines[..i + 1][..i] == lines[..i];
  }

  lemma TallyMore(sums: map<string, int>, lines: seq<Line>, i: nat, key: string)
    requires i < |lines| && Tally(sums, lines[..i]) && Written(lines[i].asset, key)
    ensures SumFor(lines[..i + 1], key) == TotalIn(sums, key) + lines[i].amount
    ensures Tally(sums[key := TotalIn(sums, key) + lines[i].amount], lines[..i + 1])
  {
    hide Written, Uses, SumFor;
    SumMore(lines, i, key, key);
    var next := sums[key := TotalIn(sums, key) + lines[i].amount];
    forall k ensures (k in next <==> Uses(lines[..i + 1], k)) && TotalIn(next, k) == SumFor(lines[..i + 1], k) {
      UsesMore(lines, i, key, k);
      SumMore(lines, i, key, k);
    }
  }

  /** Exact totals for each asset, or a refusal exactly where some running total overflows. Where
      no code has a colon in it, that is one total for each asset, issuers apart. */
  method TotalPayroll(lines: seq<Line>) returns (totals: Option<map<string, int>>)
    requires forall i :: 0 <= i < |lines| ==> FitsInt64(lines[i].amount)
    ensures totals.None? <==> exists i :: 0 <= i < |lines| && Spoils(lines, i)
    ensures totals.Some? ==> Tally(totals.value, lines)
    ensures totals.Some? && PlainLines(lines) ==> TalliesAssets(totals.value, lines)
  {
    var sums: map<string, int> := map[];
    hide DescribeAsset, Wrap64, SumFor, Uses, Written, Describable, PlainLines, TalliesAssets;
    TallyNone(lines);
    for i := 0 to |lines|
      invariant forall j :: 0 <= j < i ==> !Spoils(lines, j)
      invariant Tally(sums, lines[..i])
      invariant forall k :: k in sums ==> FitsInt64(sums[k])
    {
      var key := DescribeAsset(lines[i].asset);
      DescribedIsWritten(lines[i].asset);
      if key.None? {
        assert Spoils(lines, i);
        return None;
      }
      var s, t := TotalIn(sums, key.value), lines[i].amount;
      TallyMore(sums, lines, i, key.value);
      hide Tally;
      AddShows(s, t);
      var sum := Wrap64(s + t);
      if (s > 0 && t > 0 && sum < 0) || (s < 0 && t < 0 && sum >= 0) {
        assert Spoils(lines, i);
        return None;
      }
      sums := sums[key.value := sum];
    }
    assert lines[..|lines|] == lines;
    if PlainLines(lines) {
      TallyIsByAsset(sums, lines);
    }
    return Some(sums);
  }

  // ----- totals by asset -----

  /** What the lines in one asset come to. */
  function SumIn(lines: seq<Line>, asset: Asset): int {
    if lines == [] then 0 else
      var last := lines[|lines| - 1];
      SumIn(lines[..|lines| - 1], asset) + if last.asset == Some(asset) then last.amount else 0
  }

  predicate PlainLines(lines: seq<Line>) {
    forall i :: 0 <= i < |lines| ==> Plain(lines[i].asset)
  }

  /** Every asset with a plain code has its own total, under its own text. */
  ghost predicate TalliesAssets(sums: map<string, int>, lines: seq<Line>) {
    forall asset: Asset, text :: Written(Some(asset), text) && Plain(Some(asset)) ==>
      && TotalIn(sums, text) == SumIn(lines, asset)
      && (text in sums <==> exists i :: 0 <= i < |lines| && lines[i].asset == Some(asset))
  }

  lemma {:induction false} SumsAgree(lines: seq<Line>, asset: Asset, text: string)
    requires PlainLines(lines) && Plain(Some(asset)) && Written(Some(asset), text)
    ensures SumFor(lines, text) == SumIn(lines, asset)
  {
    hide Written, Plain;
    if lines != [] {
      var init, last := lines[..|lines| - 1], lines[|lines| - 1];
      SumsAgree(init, asset, text);
      assert Plain(last.asset);
      if Written(last.asset, text) {
        WrittenOnce(last.asset, Some(asset), text);
      }
    }
  }

  lemma TallyIsByAsset(sums: map<string, int>, lines: seq<Line>)
    requires PlainLines(lines) && Tally(sums, lines)
    ensures TalliesAssets(sums, lines)
  {
    hide Written, Plain, SumFor, SumIn;
    forall asset: Asset, text | Written(Some(asset), text) && Plain(Some(asset))
      ensures TotalIn(sums, text) == SumIn(lines, asset)
      ensures text in sums <==> exists i :: 0 <= i < |lines| && lines[i].asset == Some(asset)
    {
      SumsAgree(lines, asset, text);
      if text in sums {
        assert Uses(lines, text);
        var i :| 0 <= i < |lines| && Written(lines[i].asset, text);
        WrittenOnce(lines[i].asset, Some(asset), text);
      }
      if i :| 0 <= i < |lines| && lines[i].asset == Some(asset) {
        assert Written(lines[i].asset, text);
        assert Uses(lines, text);
      }
    }
  }

  lemma TallyNone(lines: seq<Line>)
    ensures Tally(map[], lines[..0])
  {
  }

  // ----- describing -----

  /** Everything about an envelope that a description carries beside its operations. */
  datatype Envelope = Envelope(network: string, hash: string, source: string, sequence: string, fee: string,
                               minTime: string, maxTime: string, memoType: string, memo: string, ops: seq<Payment>)

  function DescribeAsset(a: Option<Asset>): Option<string> {
    if a.None? then None
    else if a.value.Native? then Some("native")
    else if a.value.code == "" || a.value.issuer == "" then None
    else Some(a.value.code + ":" + a.value.issuer)
  }

  function AssetCode(asset: string): string {
    if asset == "native" then "XLM" else asset[..Money.Find(asset, ':')]
  }

  function NormalizeAmount(text: string): Option<string> {
    if text == "" then None else
      var parsed := Money.Parse(text);
      if parsed.Bad? then None else Some(Money.Format(parsed.stroops))
  }

  function DescribePayment(index: nat, p: Payment, txSource: string): Option<Canonical.Op> {
    var amount, asset := NormalizeAmount(p.amount), DescribeAsset(p.asset);
    if amount.None? || asset.None? then None else
      Some(Canonical.Op(index, "payment", if p.source != "" then p.source else txSource,
                        "Send " + amount.value + " " + AssetCode(asset.value) + " to " + p.destination,
                        [Canonical.Field("amount", "amount", amount.value), Canonical.Field("asset", "asset", asset.value),
                         Canonical.Field("destination", "address", p.destination)]))
  }

  // ----- what a description says -----

  predicate Describable(a: Option<Asset>) {
    a.Some? && (a.value.Native? || (a.value.code != "" && a.value.issuer != ""))
  }

  /** How an asset is written: "native", or its code, a colon and its issuer. */
  predicate Written(a: Option<Asset>, text: string) {
    && Describable(a)
    && text == if a.value.Native? then "native" else a.value.code + ":" + a.value.issuer
  }

  /** No colon in the code. */
  predicate Plain(a: Option<Asset>) {
    a.Some? && a.value.Credit? ==> ':' !in a.value.code
  }

  lemma DescribedIsWritten(a: Option<Asset>)
    ensures DescribeAsset(a).Some? <==> Describable(a)
    ensures DescribeAsset(a).Some? ==> Written(a, DescribeAsset(a).value)
  {
  }

  lemma WrittenOneWay(a: Option<Asset>, text: string)
    requires Written(a, text)
    ensures forall other :: Written(a, other) ==> other == text
  {
  }

  lemma ColonAt(code: string, issuer: string)
    requires ':' !in code
    ensures Money.Find(code + ":" + issuer, ':') == |code|
    ensures (code + ":" + issuer)[..|code|] == code && (code + ":" + issuer)[|code| + 1..] == issuer
  {
    Money.FindConcat(code, ':', issuer);
  }

  /** One text for each asset, and one asset for each text. */
  lemma WrittenOnce(a: Option<Asset>, b: Option<Asset>, text: string)
    requires Written(a, text) && Written(b, text) && Plain(a) && Plain(b)
    ensures a == b
  {
    if a.value.Credit? {
      ColonAt(a.value.code, a.value.issuer);
      assert ':' in text;
    }
    if b.value.Credit? {
      ColonAt(b.value.code, b.value.issuer);
      assert ':' in text;
    }
    assert ':' !in "native";
  }

  /** What a summary calls an asset: XLM, or its code as far as any colon in it. */
  predicate Named(a: Option<Asset>, name: string) {
    && a.Some?
    && if a.value.Native? then name == "XLM"
       else ':' !in name && name <= a.value.code && (name == a.value.code || a.value.code[|name|] == ':')
  }

  lemma CodeIsName(a: Option<Asset>, text: string)
    requires Written(a, text)
    ensures Named(a, AssetCode(text))
  {
    if a.value.Credit? {
      var code, dot := a.value.code, Money.Find(text, ':');
      assert text[|code|] == ':';
      assert ':' !in "native";
      assert dot <= |code| && text[..dot] == code[..dot];
      assert dot < |code| ==> code[dot] == text[dot];
    }
  }

  /** The three fields of a payment, in their order and of their kinds. */
  predicate HasFields(fs: seq<Canonical.Field>, amount: string, asset: string, destination: string) {
    fs == [Canonical.Field("amount", "amount", amount), Canonical.Field("asset", "asset", asset),
           Canonical.Field("destination", "address", destination)]
  }

  /** The account a payment is made from. */
  predicate Pays(p: Payment, txSource: string, source: string) {
    (p.source != "" ==> source == p.source) && (p.source == "" ==> source == txSource)
  }

  /** An operation that shows a payment: who pays, how much, of what, to whom, and the same in
      one sentence. */
  ghost predicate Shows(index: nat, p: Payment, txSource: string, op: Canonical.Op) {
    exists amount, asset, name :: ShowsAs(index, p, txSource, op, amount, asset, name)
  }

  predicate ShowsAs(index: nat, p: Payment, txSource: string, op: Canonical.Op, amount: string, asset: string, name: string) {
    && op.index == index && op.kind == "payment" && Pays(p, txSource, op.source)
    && Money.Parse(p.amount).Ok? && Money.Parse(amount) == Money.Parse(p.amount)
    && amount == Money.Format(Money.Parse(p.amount).stroops)
    && Written(p.asset, asset) && Named(p.asset, name)
    && HasFields(op.fields, amount, asset, p.destination)
    && op.summary == "Send " + amount + " " + name + " to " + p.destination
  }

  /** A payment is described exactly when its amount reads and its asset has a name, and then
      the description shows it. */
  lemma PaymentIsShown(index: nat, p: Payment, txSource: string)
    ensures var d := DescribePayment(index, p, txSource);
            && (d.Some? <==> Money.Parse(p.amount).Ok? && Describable(p.asset))
            && (d.Some? ==> Shows(index, p, txSource, d.value))
  {
    DescribedIsWritten(p.asset);
    NothingIsNoAmount();
    var d := DescribePayment(index, p, txSource);
    if d.Some? {
      var n, asset := Money.Parse(p.amount).stroops, DescribeAsset(p.asset).value;
      CodeIsName(p.asset, asset);
      ParsedFits(p.amount);
      Money.RoundTrip(n);
      hide Money.Parse, Money.Format, AssetCode, DescribeAsset, Written, Named, Describable;
      assert ShowsAs(index, p, txSource, d.value, Money.Format(n), asset, AssetCode(asset));
    }
  }

  lemma NothingIsNoAmount()
    ensures Money.Parse("").Bad?
  {
  }

  /** The operations show the first payments of the envelope, in order. */
  ghost predicate ShowsFirst(tx: Envelope, ops: seq<Canonical.Op>) {
    |ops| <= |tx.ops| && forall i :: 0 <= i < |ops| ==> Shows(i, tx.ops[i], tx.source, ops[i])
  }

  /** The description of an envelope: each part of its header in its place, and each payment. */
  ghost predicate DescribesTx(tx: Envelope, d: Canonical.Description) {
    && d.kind == "tx" && d.network == tx.network && d.hash == tx.hash && d.source == tx.source
    && d.sequence == tx.sequence && d.fee == tx.fee && d.minTime == tx.minTime && d.maxTime == tx.maxTime
    && d.memoType == tx.memoType && d.memo == tx.memo
    && |d.operations| == |tx.ops| && ShowsFirst(tx, d.operations)
  }

  predicate CanBeShown(p: Payment) {
    Money.Parse(p.amount).Ok? && Describable(p.asset)
  }

  lemma ShowsNone(tx: Envelope)
    ensures ShowsFirst(tx, [])
  {
  }

  /** One more payment: it can be shown and is, or it cannot. */
  lemma ShowsMore(tx: Envelope, ops: seq<Canonical.Op>)
    requires ShowsFirst(tx, ops) && |ops| < |tx.ops|
    ensures var d := DescribePayment(|ops|, tx.ops[|ops|], tx.source);
            && (d.Some? <==> CanBeShown(tx.ops[|ops|]))
            && (d.Some? ==> ShowsFirst(tx, ops + [d.value]))
  {
    hide DescribePayment, Shows;
    PaymentIsShown(|ops|, tx.ops[|ops|], tx.source);
  }

  /** An envelope is described exactly when it has operations and all of them can be shown. */
  method DescribeTx(tx: Envelope) returns (d: Option<Canonical.Description>)
    ensures d.Some? <==> tx.ops != [] && forall i :: 0 <= i < |tx.ops| ==> CanBeShown(tx.ops[i])
    ensures d.Some? ==> DescribesTx(tx, d.value)
  {
    if |tx.ops| == 0 {
      return None;
    }
    hide DescribePayment, ShowsFirst, CanBeShown;
    var ops: seq<Canonical.Op> := [];
    ShowsNone(tx);
    for i := 0 to |tx.ops|
      invariant |ops| == i && ShowsFirst(tx, ops)
      invariant forall j :: 0 <= j < i ==> CanBeShown(tx.ops[j])
    {
      ShowsMore(tx, ops);
      var described := DescribePayment(i, tx.ops[i], tx.source);
      if described.None? {
        return None;
      }
      ops := ops + [described.value];
    }
    return Some(Canonical.Description("tx", tx.network, tx.hash, tx.source, tx.sequence, tx.fee, tx.minTime, tx.maxTime,
                                      tx.memoType, tx.memo, ops));
  }

  // ----- the batch rules -----

  datatype BatchPayment = BatchPayment(index: int, amount: int, destination: string)

  datatype AsBatchResult =
    | BatchDescription(source: string, asset: string, assetCode: string, payments: seq<BatchPayment>, total: int)
    | NotABatch

  /** The value of the last field with this caption, or nothing. */
  function FieldOf(fs: seq<Canonical.Field>, caption: string): string {
    if fs == [] then ""
    else if fs[|fs| - 1].caption == caption then fs[|fs| - 1].value
    else FieldOf(fs[..|fs| - 1], caption)
  }

  predicate IsLast(fs: seq<Canonical.Field>, caption: string, i: int) {
    0 <= i < |fs| && fs[i].caption == caption && forall j :: i < j < |fs| ==> fs[j].caption != caption
  }

  /** The last field with the caption decides; with no such field there is nothing. */
  lemma {:induction false} FieldIsLast(fs: seq<Canonical.Field>, caption: string)
    ensures (forall i :: 0 <= i < |fs| ==> fs[i].caption != caption) ==> FieldOf(fs, caption) == ""
    ensures forall i :: IsLast(fs, caption, i) ==> FieldOf(fs, caption) == fs[i].value
  {
    if fs != [] {
      var init, last := fs[..|fs| - 1], fs[|fs| - 1];
      FieldIsLast(init, caption);
      forall i | IsLast(fs, caption, i) ensures FieldOf(fs, caption) == fs[i].value {
        if last.caption != caption {
          LastEarlier(fs, caption, i);
        }
      }
    }
  }

  lemma LastEarlier(fs: seq<Canonical.Field>, caption: string, i: int)
    requires IsLast(fs, caption, i) && fs[|fs| - 1].caption != caption
    ensures i < |fs| - 1 && IsLast(fs[..|fs| - 1], caption, i)
  {
  }

  method PaymentFields(op: Canonical.Op) returns (amount: string, asset: string, destination: string)
    ensures amount == FieldOf(op.fields, "amount") && asset == FieldOf(op.fields, "asset")
    ensures destination == FieldOf(op.fields, "destination")
  {
    amount, asset, destination := "", "", "";
    for i := 0 to |op.fields|
      invariant amount == FieldOf(op.fields[..i], "amount") && asset == FieldOf(op.fields[..i], "asset")
      invariant destination == FieldOf(op.fields[..i], "destination")
    {
      var f := op.fields[i];
      assert op.fields[..i + 1][..i] == op.fields[..i];
      if f.caption == "amount" {
        amount := f.value;
      } else if f.caption == "asset" {
        asset := f.value;
      } else if f.caption == "destination" {
        destination := f.value;
      }
    }
    assert op.fields[..|op.fields|] == op.fields;
  }

  function AmountOf(op: Canonical.Op): int {
    var a := Money.Parse(FieldOf(op.fields, "amount"));
    if a.Ok? then a.stroops else 0
  }

  function AmountsOf(ops: seq<Canonical.Op>): (s: seq<int>)
    ensures |s| == |ops| && forall i :: 0 <= i < |s| ==> s[i] == AmountOf(ops[i])
  {
    seq(|ops|, i requires 0 <= i < |ops| => AmountOf(ops[i]))
  }

  /** A payment of more than nothing, from the envelope's own account, in the given asset. */
  predicate IsRow(d: Canonical.Description, op: Canonical.Op, asset: string) {
    && op.kind == "payment" && op.source == d.source
    && FieldOf(op.fields, "asset") == asset != ""
    && FieldOf(op.fields, "destination") != ""
    && AmountOf(op) > 0
  }

  function RowOf(op: Canonical.Op): BatchPayment {
    BatchPayment(op.index, AmountOf(op), FieldOf(op.fields, "destination"))
  }

  ghost predicate IsBatch(d: Canonical.Description) {
    && d.operations != []
    && (forall i :: 0 <= i < |d.operations| ==> IsRow(d, d.operations[i], FieldOf(d.operations[0].fields, "asset")))
    && SumSeq(AmountsOf(d.operations)) <= MAX_INT64
  }

  /** The text of an asset as far as its first colon, or XLM. */
  predicate CodeIn(asset: string, name: string) {
    if asset == "native" then name == "XLM"
    else ':' !in name && name <= asset && (name == asset || asset[|name|] == ':')
  }

  lemma CodeIsIn(asset: string)
    ensures CodeIn(asset, AssetCode(asset))
  {
  }

  lemma ParsedFits(text: string)
    ensures Money.Parse(text).Ok? ==> FitsInt64(Money.Parse(text).stroops)
  {
  }

  /**
   AsBatch, on any description at all: it is shown as a batch exactly when every operation
   is a positive payment from the one account in one asset and the true total fits, and
   then the total is the true one.
   */
  method AsBatch(d: Canonical.Description) returns (r: AsBatchResult)
    ensures r.BatchDescription? <==> IsBatch(d)
    ensures r.BatchDescription? ==> && r.source == d.source && r.asset == FieldOf(d.operations[0].fields, "asset")
                                    && CodeIn(r.asset, r.assetCode)
                                    && r.total == SumSeq(AmountsOf(d.operations))
                                    && |r.payments| == |d.operations|
                                    && forall i :: 0 <= i < |d.operations| ==> r.payments[i] == RowOf(d.operations[i])
  {
    hide *;
    NoneRead(d);
    if |d.operations| == 0 {
      return NotABatch;
    }
    var asset, total := "", 0;
    var payments: seq<BatchPayment> := [];
    for i := 0 to |d.operations|
      invariant SoFar(d, i, asset, payments, total)
    {
      ReadMore(d, i, asset, payments, total);
      var ok, opAsset, payment := ReadRow(d, d.operations[i], asset);
      if !ok {
        return NotABatch;
      }
      asset := opAsset;
      var next := Wrap64(total + payment.amount);
      WrapShows(total, payment.amount);
      if next < total {
        return NotABatch;
      }
      total := next;
      payments := payments + [payment];
    }
    AllRead(d, asset, payments, total);
    CodeIsIn(asset);
    return BatchDescription(d.source, asset, AssetCode(asset), payments, total);
  }

  function SentAsset(d: Canonical.Description): string {
    if d.operations == [] then "" else FieldOf(d.operations[0].fields, "asset")
  }

  /** The first i operations are rows of a batch, and have been added up. */
  ghost predicate SoFar(d: Canonical.Description, i: nat, asset: string, payments: seq<BatchPayment>, total: int) {
    && i <= |d.operations|
    && asset == (if i == 0 then "" else SentAsset(d))
    && (forall j :: 0 <= j < i ==> IsRow(d, d.operations[j], SentAsset(d)))
    && total == SumSeq(AmountsOf(d.operations)[..i]) && 0 <= total <= MAX_INT64
    && |payments| == i && forall j :: 0 <= j < i ==> payments[j] == RowOf(d.operations[j])
  }

  lemma NoneRead(d: Canonical.Description)
    ensures SoFar(d, 0, "", [], 0)
    ensures d.operations == [] ==> !IsBatch(d)
  {
  }

  lemma ReadMore(d: Canonical.Description, i: nat, asset: string, payments: seq<BatchPayment>, total: int)
    requires SoFar(d, i, asset, payments, total) && i < |d.operations|
    ensures var op := d.operations[i];
            var sent := if asset == "" then FieldOf(op.fields, "asset") else asset;
            && 0 <= total <= MAX_INT64
            && (!IsRow(d, op, sent) ==> !IsBatch(d))
            && (IsRow(d, op, sent) && total + AmountOf(op) > MAX_INT64 ==> !IsBatch(d))
            && (IsRow(d, op, sent) && total + AmountOf(op) <= MAX_INT64 ==>
                  SoFar(d, i + 1, FieldOf(op.fields, "asset"), payments + [RowOf(op)], total + AmountOf(op)))
  {
    hide FieldOf, AmountOf, SumSeq;
    var op, amounts := d.operations[i], AmountsOf(d.operations);
    assert i > 0 ==> IsRow(d, d.operations[0], SentAsset(d));
    SumOneMore(amounts, i);
    if total + AmountOf(op) > MAX_INT64 {
      Overflowed(d, amounts, i);
    }
  }

  lemma AllRead(d: Canonical.Description, asset: string, payments: seq<BatchPayment>, total: int)
    requires SoFar(d, |d.operations|, asset, payments, total) && d.operations != []
    ensures IsBatch(d) && asset == FieldOf(d.operations[0].fields, "asset") && total == SumSeq(AmountsOf(d.operations))
    ensures |payments| == |d.operations| && forall i :: 0 <= i < |d.operations| ==> payments[i] == RowOf(d.operations[i])
  {
    hide FieldOf, AmountOf, SumSeq, IsRow, RowOf;
    var amounts := AmountsOf(d.operations);
    assert amounts[..|amounts|] == amounts;
  }

  /** One operation against the rules, the asset being whatever the first one sends. */
  method ReadRow(d: Canonical.Description, op: Canonical.Op, asset: string)
      returns (ok: bool, opAsset: string, payment: BatchPayment)
    ensures ok <==> IsRow(d, op, if asset == "" then FieldOf(op.fields, "asset") else asset)
    ensures ok ==> opAsset == FieldOf(op.fields, "asset")
    ensures ok ==> payment == RowOf(op) && payment.amount == AmountOf(op) && 0 < payment.amount <= MAX_INT64
  {
    hide FieldOf, Money.Parse;
    ok, opAsset, payment := false, "", BatchPayment(0, 0, "");
    if op.kind != "payment" || op.source != d.source {
      return;
    }
    var amountText, sent, destination := PaymentFields(op);
    if sent == "" || destination == "" {
      return;
    }
    if asset != "" && sent != asset {
      return;
    }
    var parsed := Money.Parse(amountText);
    ParsedFits(amountText);
    if parsed.Bad? || parsed.stroops <= 0 {
      return;
    }
    ok, opAsset, payment := true, sent, BatchPayment(op.index, parsed.stroops, destination);
  }

  /** A prefix that overflows means that the whole does. */
  lemma Overflowed(d: Canonical.Description, amounts: seq<int>, i: nat)
    requires amounts == AmountsOf(d.operations) && i < |amounts| && SumSeq(amounts[..i + 1]) > MAX_INT64
    ensures !IsBatch(d)
  {
    if IsBatch(d) {
      AmountsAreBounded(d.operations);
      PrefixIsLess(amounts, i + 1);
    }
  }

  lemma AmountsAreBounded(ops: seq<Canonical.Op>)
    requires forall i :: 0 <= i < |ops| ==> AmountOf(ops[i]) > 0
    ensures Positive(AmountsOf(ops))
  {
    hide Money.Parse;
    forall i | 0 <= i < |ops| ensures AmountOf(ops[i]) <= MAX_INT64 {
      ParsedFits(FieldOf(ops[i].fields, "amount"));
    }
  }

  // ----- the round trip -----

  function LinesOf(asset: Asset, rows: seq<Row>): (lines: seq<Line>)
    ensures |lines| == |rows|
    ensures forall i :: 0 <= i < |rows| ==> lines[i] == Line(rows[i].destination, Some(asset), rows[i].amount)
  {
    seq(|rows|, i requires 0 <= i < |rows| => Line(rows[i].destination, Some(asset), rows[i].amount))
  }

  /** What the row of a batch asks for is what its operation shows, and what is read back. */
  lemma RowComesBack(from: string, asset: Asset, row: Row, index: nat, op: Canonical.Op, d: Canonical.Description)
    requires 0 < row.amount <= MAX_INT64 && row.destination != "" && from != "" && d.source == from
    requires Shows(index, Payment(from, row.destination, Money.Format(row.amount), Some(asset)), from, op)
    ensures exists text :: Written(Some(asset), text) && IsRow(d, op, text)
    ensures RowOf(op) == BatchPayment(index, row.amount, row.destination)
  {
    Money.RoundTrip(row.amount);
    hide Money.Parse, Money.Format, FieldOf;
    var p := Payment(from, row.destination, Money.Format(row.amount), Some(asset));
    var amount, text, name :| ShowsAs(index, p, from, op, amount, text, name);
    ThreeFields(amount, text, row.destination);
    assert Written(Some(asset), text) && text != "";
  }

  /** A described envelope that is shown as a batch is one: every payment in it is from the
      envelope's own account and, where no code has a colon in it, in the one asset; and
      the destinations, the amounts and the total shown are the payments' own. */
  lemma BatchIsWhatIsPaid(tx: Envelope, d: Canonical.Description)
    requires DescribesTx(tx, d) && IsBatch(d)
    ensures forall i :: 0 <= i < |tx.ops| ==> Pays(tx.ops[i], tx.source, tx.source)
    ensures forall i :: 0 <= i < |tx.ops| ==> Written(tx.ops[i].asset, FieldOf(d.operations[0].fields, "asset"))
    ensures (forall i :: 0 <= i < |tx.ops| ==> Plain(tx.ops[i].asset)) ==>
              forall i :: 0 <= i < |tx.ops| ==> tx.ops[i].asset == tx.ops[0].asset
    ensures forall i :: 0 <= i < |tx.ops| ==>
              RowOf(d.operations[i]) == BatchPayment(i, Money.Parse(tx.ops[i].amount).stroops, tx.ops[i].destination)
  {
    hide Money.Parse, Money.Format, FieldOf, AmountOf, SumSeq, Written, Plain;
    var sent := FieldOf(d.operations[0].fields, "asset");
    forall i | 0 <= i < |tx.ops|
      ensures Pays(tx.ops[i], tx.source, tx.source) && Written(tx.ops[i].asset, sent)
      ensures RowOf(d.operations[i]) == BatchPayment(i, Money.Parse(tx.ops[i].amount).stroops, tx.ops[i].destination)
    {
      assert IsRow(d, d.operations[i], sent);
      ShownIsRead(i, tx.ops[i], tx.source, d.operations[i]);
    }
    if forall i :: 0 <= i < |tx.ops| ==> Plain(tx.ops[i].asset) {
      forall i | 0 <= i < |tx.ops| ensures tx.ops[i].asset == tx.ops[0].asset {
        WrittenOnce(tx.ops[i].asset, tx.ops[0].asset, sent);
      }
    }
  }

  lemma ShownIsRead(index: nat, p: Payment, txSource: string, op: Canonical.Op)
    requires Shows(index, p, txSource, op)
    ensures Pays(p, txSource, op.source) && Written(p.asset, FieldOf(op.fields, "asset"))
    ensures Money.Parse(p.amount).Ok?
    ensures RowOf(op) == BatchPayment(index, Money.Parse(p.amount).stroops, p.destination)
  {
    hide Money.Parse, Money.Format, FieldOf, Written;
    var amount, asset, name :| ShowsAs(index, p, txSource, op, amount, asset, name);
    ThreeFields(amount, asset, p.destination);
  }

  lemma ThreeFields(amount: string, asset: string, destination: string)
    ensures var fields := [Canonical.Field("amount", "amount", amount), Canonical.Field("asset", "asset", asset),
                           Canonical.Field("destination", "address", destination)];
            FieldOf(fields, "amount") == amount && FieldOf(fields, "asset") == asset
            && FieldOf(fields, "destination") == destination
  {
    var fields := [Canonical.Field("amount", "amount", amount), Canonical.Field("asset", "asset", asset),
                   Canonical.Field("destination", "address", destination)];
    assert |"amount"| == 6 && |"asset"| == 5 && |"destination"| == 11;
    assert fields[..3] == fields && fields[..2][..1] == fields[..1] && fields[..1][..0] == [];
    assert fields[..2] == fields[..|fields| - 1];
    FieldFirst(fields[..1]);
  }

  lemma FieldFirst(fs: seq<Canonical.Field>)
    requires |fs| == 1
    ensures FieldOf(fs, fs[0].caption) == fs[0].value
  {
  }

  datatype Proposed =
    | Proposal(described: Canonical.Description, batch: AsBatchResult)
    | NotBuilt(error: BuildError)
    | TooManyOperations
    | Indescribable
    | NotShownAsABatch
    | TotalsDisagree

  /**
   The envelope check of proposeBatch. For every batch that was resolved, the treasury and
   the destinations being addresses is all it takes: no size limit refuses it, the envelope
   describes as a batch with the same destinations and amounts in the same order, and the
   two totals never disagree.
   */
  method ProposeBatch(valid: string -> bool, treasury: string, asset: Asset, rows: seq<Row>, total: int, header: Envelope)
      returns (r: Proposed)
    requires Sound(rows, total) && Describable(Some(asset)) && !valid("")
    ensures r.Proposal? <==> valid(treasury) && forall i :: 0 <= i < |rows| ==> valid(rows[i].destination)
    ensures r.NotBuilt? <==> !r.Proposal?
    ensures r.Proposal? ==> && r.batch.BatchDescription? && r.batch.total == total
                            && r.batch.source == treasury && Written(Some(asset), r.batch.asset)
                            && |r.batch.payments| == |rows|
                            && forall i :: 0 <= i < |rows| ==>
                                             r.batch.payments[i] == BatchPayment(i, rows[i].amount, rows[i].destination)
  {
    var lines := LinesOf(asset, rows);
    assert forall i :: 0 <= i < |rows| ==> Amounts(rows)[i] == rows[i].amount > 0;
    var built := BuildPayroll(valid, treasury, lines);
    if built.Unbuilt? {
      return NotBuilt(built.error);
    }
    if |built.ops| > MAX_OPERATIONS {
      return TooManyOperations;
    }
    hide Money.Format, Money.Parse, IsRow, RowOf, AmountOf, FieldOf, Shows, Written, Describable, Named;
    RowsAreReadable(rows);
    var tx := header.(source := treasury, ops := built.ops);
    var described := DescribeTx(tx);
    if described.None? {
      return Indescribable;
    }
    RowsComeBack(treasury, asset, rows, tx, described.value);
    DescribesAsBatch(described.value, asset, rows, total, treasury);
    var batch := AsBatch(described.value);
    if batch.NotABatch? {
      return NotShownAsABatch;
    }
    if batch.total != total {
      return TotalsDisagree;
    }
    return Proposal(described.value, batch);
  }

  lemma RowsAreReadable(rows: seq<Row>)
    requires Positive(Amounts(rows))
    ensures forall i :: 0 <= i < |rows| ==> Money.Parse(Money.Format(rows[i].amount)).Ok?
  {
    hide Money.Parse, Money.Format;
    forall i | 0 <= i < |rows| ensures Money.Parse(Money.Format(rows[i].amount)).Ok? {
      assert Amounts(rows)[i] == rows[i].amount;
      Money.RoundTrip(rows[i].amount);
    }
  }

  ghost predicate ComesBack(asset: Asset, row: Row, index: nat, op: Canonical.Op, d: Canonical.Description) {
    && (exists text :: Written(Some(asset), text) && IsRow(d, op, text))
    && RowOf(op) == BatchPayment(index, row.amount, row.destination)
  }

  lemma RowsComeBack(from: string, asset: Asset, rows: seq<Row>, tx: Envelope, d: Canonical.Description)
    requires Positive(Amounts(rows)) && from != "" && tx.source == from && DescribesTx(tx, d) && |tx.ops| == |rows|
    requires forall i :: 0 <= i < |rows| ==>
                           && rows[i].destination != ""
                           && tx.ops[i] == Payment(from, rows[i].destination, Money.Format(rows[i].amount), Some(asset))
    ensures forall i :: 0 <= i < |rows| ==> ComesBack(asset, rows[i], i, d.operations[i], d)
  {
    hide Money.Format, IsRow, RowOf, Written, Shows;
    forall i | 0 <= i < |rows| ensures ComesBack(asset, rows[i], i, d.operations[i], d) {
      assert Amounts(rows)[i] == rows[i].amount;
      RowComesBack(from, asset, rows[i], i, d.operations[i], d);
    }
  }

  lemma DescribesAsBatch(d: Canonical.Description, asset: Asset, rows: seq<Row>, total: int, from: string)
    requires Sound(rows, total) && |d.operations| == |rows|
    requires forall i :: 0 <= i < |rows| ==> ComesBack(asset, rows[i], i, d.operations[i], d)
    ensures IsBatch(d) && SumSeq(AmountsOf(d.operations)) == total
    ensures Written(Some(asset), FieldOf(d.operations[0].fields, "asset"))
  {
    hide FieldOf, AmountOf, Written;
    assert AmountsOf(d.operations) == Amounts(rows) by {
      forall i | 0 <= i < |rows| ensures AmountOf(d.operations[i]) == rows[i].amount {
        assert RowOf(d.operations[i]).amount == rows[i].amount;
      }
    }
    assert ComesBack(asset, rows[0], 0, d.operations[0], d);
    var text :| Written(Some(asset), text) && IsRow(d, d.operations[0], text);
    WrittenOneWay(Some(asset), text);
  }
}
