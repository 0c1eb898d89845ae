/**
 Changing who can sign for an account: the operations built for a request, the signer set
 the builder predicts, and what the network makes of those operations one by one.
 */
module Multisig {
  import opened Common
  import opened SetSums

  const UINT32 := 0x1_0000_0000

  /** How many signers the network lets an account have. */
  const MAX_SIGNERS := 20

  type Weight = w: nat | w < UINT32

  type Byte = b: nat | b < 256

  datatype SignerSet = SignerSet(master: Weight, signers: map<string, Weight>, low: Weight, medium: Weight, high: Weight)

  datatype Change = Change(address: string, weight: Weight)

  /** `known` says that a signer map was given at all. */
  datatype Request = Request(account: string, current: SignerSet, known: bool, changes: seq<Change>,
                             master: Option<Weight>, low: Option<Weight>, medium: Option<Weight>, high: Option<Weight>,
                             homeDomain: Option<string>)

  datatype SetOptions = SetOptions(source: string, signer: Option<(string, Byte)>, master: Option<Byte>,
                                   low: Option<Byte>, medium: Option<Byte>, high: Option<Byte>,
                                   homeDomain: Option<string>)

  datatype Refusal =
    | BadAccount
    | Blind
    | WeightTooLarge
    | ThresholdTooLarge
    | NoSignerLeft
    | HighOutOfReach
    | ThresholdOutOfReach
    | OutOfOrder
    | BadSigner
    | OwnKey
    | ChangesNothing

  datatype Built = Ok(ops: seq<SetOptions>) | Refused(why: Refusal)

  // ----- weight -----

  function Lookup(m: map<string, Weight>, a: string): Option<Weight> {
    if a in m then Some(m[a]) else None
  }

  ghost function Weigh(m: map<string, Weight>): string -> int {
    a => if a in m then m[a] else 0
  }

  /** Everything the account can sign with, as a number that does not wrap. */
  ghost function TrueWeight(s: SignerSet): int {
    s.master + Sum(s.signers.Keys, Weigh(s.signers))
  }

  /** Adds up the weights in whatever order the map gives them, in 32 bits. */
  method TotalWeight(s: SignerSet) returns (total: Weight)
    ensures total == TrueWeight(s) % UINT32
  {
    total := s.master;
    var left := s.signers.Keys;
    while left != {}
      invariant left <= s.signers.Keys
      invariant (total + Sum(left, Weigh(s.signers))) % UINT32 == TrueWeight(s) % UINT32
      decreases left
    {
      var a :| a in left;
      SumRemove(left, Weigh(s.signers), a);
      WrapStep(total, s.signers[a], Sum(left - {a}, Weigh(s.signers)));
      total := (total + s.signers[a]) % UINT32;
      left := left - {a};
    }
  }

  lemma WrapStep(t: int, w: int, rest: int)
    ensures ((t + w) % UINT32 + rest) % UINT32 == (t + (w + rest)) % UINT32
  {
  }

  lemma {:induction false} SumNonNegative(s: set<string>, m: map<string, Weight>)
    ensures Sum(s, Weigh(m)) >= 0
    decreases s
  {
    if s != {} {
      var x :| x in s;
      SumRemove(s, Weigh(m), x);
      SumNonNegative(s - {x}, m);
    }
  }

  /** A wrapped total never overstates the weight. */
  lemma WrappedIsLess(s: SignerSet)
    ensures TrueWeight(s) >= 0 && TrueWeight(s) % UINT32 <= TrueWeight(s)
  {
    SumNonNegative(s.signers.Keys, s.signers);
  }

  // ----- the lockout check -----

  /** The account can still reach every threshold, and the thresholds are in order. */
  ghost predicate Repairable(s: SignerSet) {
    0 < TrueWeight(s) && s.low <= s.medium <= s.high <= TrueWeight(s)
  }

  method CheckLockout(s: SignerSet) returns (r: Option<Refusal>)
    ensures r == LockoutVerdict(s)
  {
    var total := TotalWeight(s);
    if total == 0 {
      return Some(NoSignerLeft);
    }
    if s.high > total {
      return Some(HighOutOfReach);
    }
    if s.medium > total || s.low > total {
      return Some(ThresholdOutOfReach);
    }
    if s.low > s.medium || s.medium > s.high {
      return Some(OutOfOrder);
    }
    return None;
  }

  ghost function LockoutVerdict(s: SignerSet): Option<Refusal> {
    var total := TrueWeight(s) % UINT32;
    if total == 0 then Some(NoSignerLeft)
    else if s.high > total then Some(HighOutOfReach)
    else if s.medium > total || s.low > total then Some(ThresholdOutOfReach)
    else if s.low > s.medium || s.medium > s.high then Some(OutOfOrder)
    else None
  }

  /** A set that passes can be repaired, whatever its weights; and every repairable set
      passes unless its weights overflow 32 bits. */
  lemma LockoutIsSafe(s: SignerSet)
    ensures LockoutVerdict(s) == None ==> Repairable(s)
    ensures TrueWeight(s) < UINT32 ==> (LockoutVerdict(s) == None <==> Repairable(s))
  {
    WrappedIsLess(s);
  }

  // ----- the predicted set -----

  /** What the last change naming an address leaves it with. */
  function WeightAfter(current: map<string, Weight>, changes: seq<Change>, a: string): Option<Weight> {
    if changes == [] then Lookup(current, a)
    else
      var last := changes[|changes| - 1];
      if last.address != a then WeightAfter(current, changes[..|changes| - 1], a)
      else if last.weight == 0 then None
      else Some(last.weight)
  }

  /** A signer map that holds exactly what the changes leave. */
  ghost predicate Reflects(m: map<string, Weight>, current: map<string, Weight>, changes: seq<Change>) {
    forall a :: Lookup(m, a) == WeightAfter(current, changes, a)
  }

  function Or(o: Option<Weight>, w: Weight): Weight {
    if o.Some? then o.value else w
  }

  predicate TooLarge(o: Option<Weight>) {
    o.Some? && o.value > 255
  }

  predicate WeightsFit(changes: seq<Change>) {
    forall i :: 0 <= i < |changes| ==> changes[i].weight <= 255
  }

  predicate ThresholdsFit(req: Request) {
    !TooLarge(req.master) && !TooLarge(req.low) && !TooLarge(req.medium) && !TooLarge(req.high)
  }

  /** One change, put into the map. */
  function PutSigner(m: map<string, Weight>, c: Change): map<string, Weight> {
    if c.weight == 0 then m - {c.address} else m[c.address := c.weight]
  }

  function SignersAfter(current: map<string, Weight>, changes: seq<Change>): map<string, Weight> {
    if changes == [] then current
    else PutSigner(SignersAfter(current, changes[..|changes| - 1]), changes[|changes| - 1])
  }

  /** The signer set a request is to produce. */
  function Resulting(req: Request): SignerSet {
    SignerSet(Or(req.master, req.current.master), SignersAfter(req.current.signers, req.changes),
              Or(req.low, req.current.low), Or(req.medium, req.current.medium), Or(req.high, req.current.high))
  }

  /** Repeats included, an address is left with what its last change says, and an address
      that is not named keeps what it had. */
  lemma {:induction false} LastChangeWins(current: map<string, Weight>, changes: seq<Change>)
    ensures Reflects(SignersAfter(current, changes), current, changes)
  {
    if changes != [] {
      var before := changes[..|changes| - 1];
      LastChangeWins(current, before);
      forall a ensures Lookup(SignersAfter(current, changes), a) == WeightAfter(current, changes, a) {
        assert Lookup(SignersAfter(current, before), a) == WeightAfter(current, before, a);
      }
    }
  }

  lemma OneMoreChange(current: map<string, Weight>, changes: seq<Change>, i: nat)
    requires i < |changes|
    ensures SignersAfter(current, changes[..i + 1]) == PutSigner(SignersAfter(current, changes[..i]), changes[i])
  {
    assert changes[..i + 1][..i] == changes[..i];
  }

  method ApplyChanges(req: Request) returns (err: Option<Refusal>, out: SignerSet)
    ensures err == RangeVerdict(req)
    ensures err.None? ==> out == Resulting(req)
  {
    out := req.current;
    for i := 0 to |req.changes|
      invariant WeightsFit(req.changes[..i])
      invariant out == req.current.(signers := SignersAfter(req.current.signers, req.changes[..i]))
    {
      var change := req.changes[i];
      if change.weight > 255 {
        return Some(WeightTooLarge), out;
      }
      OneMoreChange(req.current.signers, req.changes, i);
      if change.weight == 0 {
        out := out.(signers := out.signers - {change.address});
      } else {
        out := out.(signers := out.signers[change.address := change.weight]);
      }
    }
    assert req.changes[..|req.changes|] == req.changes;
    if TooLarge(req.master) || TooLarge(req.low) || TooLarge(req.medium) || TooLarge(req.high) {
      return Some(ThresholdTooLarge), out;
    }
    if req.master.Some? {
      out := out.(master := req.master.value);
    }
    if req.low.Some? {
      out := out.(low := req.low.value);
    }
    if req.medium.Some? {
      out := out.(medium := req.medium.value);
    }
    if req.high.Some? {
      out := out.(high := req.high.value);
    }
    err := None;
  }

  function RangeVerdict(req: Request): Option<Refusal> {
    if !WeightsFit(req.changes) then Some(WeightTooLarge)
    else if !ThresholdsFit(req) then Some(ThresholdTooLarge)
    else None
  }

  // ----- building the operations -----

  /** The narrowing conversion to one byte. */
  function Narrow(w: Weight): Byte {
    w % 256
  }

  function NarrowOption(o: Option<Weight>): Option<Byte> {
    if o.Some? then Some(Narrow(o.value)) else None
  }

  function SignerOp(account: string, c: Change): SetOptions {
    SetOptions(account, Some((c.address, Narrow(c.weight))), None, None, None, None, None)
  }

  predicate HasOptions(req: Request) {
    req.master.Some? || req.low.Some? || req.medium.Some? || req.high.Some? || req.homeDomain.Some?
  }

  predicate GoodAddress(valid: string -> bool, account: string, c: Change) {
    valid(c.address) && c.address != account
  }

  /** Why the first bad signer address is refused. */
  function AddressVerdict(valid: string -> bool, account: string, changes: seq<Change>): (r: Option<Refusal>)
    ensures r.None? <==> forall i :: 0 <= i < |changes| ==> GoodAddress(valid, account, changes[i])
  {
    if changes == [] then None
    else if !valid(changes[0].address) then
      assert !GoodAddress(valid, account, changes[0]);
      Some(BadSigner)
    else if changes[0].address == account then
      assert !GoodAddress(valid, account, changes[0]);
      Some(OwnKey)
    else
      var rest := AddressVerdict(valid, account, changes[1..]);
      assert rest.None? ==> forall i :: 1 <= i < |changes| ==> changes[i] == changes[1..][i - 1];
      rest
  }

  /** Why a request is refused, the first reason winning. */
  ghost function Verdict(valid: string -> bool, req: Request): Option<Refusal> {
    if !valid(req.account) then Some(BadAccount)
    else if !req.known && req.current.master == 0 then Some(Blind)
    else if RangeVerdict(req).Some? then RangeVerdict(req)
    else if LockoutVerdict(Resulting(req)).Some? then LockoutVerdict(Resulting(req))
    else if AddressVerdict(valid, req.account, req.changes).Some? then AddressVerdict(valid, req.account, req.changes)
    else if req.changes == [] && !HasOptions(req) then Some(ChangesNothing)
    else None
  }

  predicate Fits(o: Option<Weight>) {
    o.Some? ==> o.value <= 255
  }

  /** What a request has to be: for a real account, not blind to its signers unless its own key
      has weight, with everything in a byte, leading to a set that does not lock the account,
      naming real signers other than the account's own key, and changing something. */
  ghost predicate Buildable(valid: string -> bool, req: Request) {
    && valid(req.account)
    && (req.known || req.current.master > 0)
    && (forall c :: c in req.changes ==> c.weight <= 255 && valid(c.address) && c.address != req.account)
    && Fits(req.master) && Fits(req.low) && Fits(req.medium) && Fits(req.high)
    && LockoutVerdict(Resulting(req)).None?
    && (req.changes != [] || req.master != None || req.low != None || req.medium != None || req.high != None
        || req.homeDomain != None)
  }

  /** What each refusal says of the request. */
  ghost predicate IsWhy(valid: string -> bool, req: Request, why: Refusal) {
    match why
    case BadAccount => !valid(req.account)
    case Blind => !req.known && req.current.master == 0
    case WeightTooLarge => exists c :: c in req.changes && c.weight > 255
    case ThresholdTooLarge => !(Fits(req.master) && Fits(req.low) && Fits(req.medium) && Fits(req.high))
    case BadSigner => exists c :: c in req.changes && !valid(c.address)
    case OwnKey => exists c :: c in req.changes && c.address == req.account
    case ChangesNothing =>
      && req.changes == [] && req.master == None && req.low == None && req.medium == None && req.high == None
      && req.homeDomain == None
    case _ => LockoutVerdict(Resulting(req)) == Some(why)
  }

  lemma {:induction false} AddressesTell(valid: string -> bool, account: string, changes: seq<Change>)
    ensures var r := AddressVerdict(valid, account, changes);
            && (r.None? <==> forall c :: c in changes ==> valid(c.address) && c.address != account)
            && (r == Some(BadSigner) ==> exists c :: c in changes && !valid(c.address))
            && (r == Some(OwnKey) ==> exists c :: c in changes && c.address == account)
            && (r.Some? ==> r == Some(BadSigner) || r == Some(OwnKey))
  {
    if changes != [] {
      var rest := changes[1..];
      AddressesTell(valid, account, rest);
      assert forall c :: c in changes <==> c == changes[0] || c in rest;
    }
  }

  lemma WeightsTell(changes: seq<Change>)
    ensures WeightsFit(changes) <==> forall c :: c in changes ==> c.weight <= 255
  {
  }

  /** A request is refused exactly when it is not buildable, and then for a reason that is so. */
  lemma VerdictTells(valid: string -> bool, req: Request)
    ensures Verdict(valid, req).None? <==> Buildable(valid, req)
    ensures Verdict(valid, req).Some? ==> IsWhy(valid, req, Verdict(valid, req).value)
  {
    hide LockoutVerdict, Resulting, WeightsFit, AddressVerdict;
    AddressesTell(valid, req.account, req.changes);
    WeightsTell(req.changes);
    LockoutTells(Resulting(req));
  }

  lemma LockoutTells(s: SignerSet)
    ensures LockoutVerdict(s).Some? ==>
              LockoutVerdict(s).value in {NoSignerLeft, HighOutOfReach, ThresholdOutOfReach, OutOfOrder}
  {
  }

  function SignerOps(account: string, changes: seq<Change>): (ops: seq<SetOptions>)
    ensures |ops| == |changes|
  {
    if changes == [] then []
    else SignerOps(account, changes[..|changes| - 1]) + [SignerOp(account, changes[|changes| - 1])]
  }

  function OptionsOp(req: Request): SetOptions {
    SetOptions(req.account, None, NarrowOption(req.master), NarrowOption(req.low), NarrowOption(req.medium),
               NarrowOption(req.high), req.homeDomain)
  }

  function Ops(req: Request): seq<SetOptions> {
    SignerOps(req.account, req.changes) + if HasOptions(req) then [OptionsOp(req)] else []
  }

  method BuildMultisig(valid: string -> bool, req: Request) returns (built: Built)
    ensures built == if Verdict(valid, req).Some? then Refused(Verdict(valid, req).value) else Ok(Ops(req))
    ensures built.Ok? <==> Buildable(valid, req)
    ensures built.Refused? ==> IsWhy(valid, req, built.why)
  {
    hide Buildable, IsWhy;
    VerdictTells(valid, req);
    if !valid(req.account) {
      return Refused(BadAccount);
    }
    if !req.known && req.current.master == 0 {
      return Refused(Blind);
    }
    var err, out := ApplyChanges(req);
    if err.Some? {
      return Refused(err.value);
    }
    err := CheckLockout(out);
    if err.Some? {
      return Refused(err.value);
    }
    var ops: seq<SetOptions> := [];
    hide SignersAfter, LockoutVerdict, RangeVerdict;
    for i := 0 to |req.changes|
      invariant AddressVerdict(valid, req.account, req.changes) == AddressVerdict(valid, req.account, req.changes[i..])
      invariant ops == SignerOps(req.account, req.changes[..i])
    {
      var change := req.changes[i];
      assert req.changes[i..][0] == change && req.changes[i..][1..] == req.changes[i + 1..];
      if !valid(change.address) {
        return Refused(BadSigner);
      }
      if change.address == req.account {
        return Refused(OwnKey);
      }
      assert req.changes[..i + 1][..i] == req.changes[..i];
      ops := ops + [SignerOp(req.account, change)];
    }
    assert req.changes[..|req.changes|] == req.changes;
    if HasOptions(req) {
      ops := ops + [OptionsOp(req)];
    }
    if ops == [] {
      return Refused(ChangesNothing);
    }
    built := Ok(ops);
  }

  // ----- what the network makes of them -----

  /** One signer too many. */
  predicate Crowds(m: map<string, Weight>, a: string, w: Weight) {
    w > 0 && a !in m && |m| >= MAX_SIGNERS
  }

  /** No change along the way leaves too many signers. */
  predicate Roomy(current: map<string, Weight>, changes: seq<Change>) {
    forall i :: 0 <= i <= |changes| ==> |SignersAfter(current, changes[..i])| <= MAX_SIGNERS
  }

  lemma RoomyOneMore(current: map<string, Weight>, changes: seq<Change>)
    requires changes != []
    ensures var init := changes[..|changes| - 1];
            Roomy(current, changes) <==> Roomy(current, init) && |SignersAfter(current, changes)| <= MAX_SIGNERS
  {
    hide SignersAfter;
    var init := changes[..|changes| - 1];
    assert forall i :: 0 <= i < |changes| ==> init[..i] == changes[..i];
    assert changes[..|changes|] == changes;
    if Roomy(current, init) && |SignersAfter(current, changes)| <= MAX_SIGNERS {
      forall i | 0 <= i <= |changes| ensures |SignersAfter(current, changes[..i])| <= MAX_SIGNERS {
        assert i < |changes| ==> |SignersAfter(current, init[..i])| <= MAX_SIGNERS;
      }
    }
    if Roomy(current, changes) {
      forall i | 0 <= i <= |init| ensures |SignersAfter(current, init[..i])| <= MAX_SIGNERS {
        assert |SignersAfter(current, changes[..i])| <= MAX_SIGNERS;
      }
    }
  }

  lemma CrowdsIff(m: map<string, Weight>, c: Change)
    requires |m| <= MAX_SIGNERS
    ensures Crowds(m, c.address, c.weight) <==> |PutSigner(m, c)| > MAX_SIGNERS
  {
    var after := PutSigner(m, c);
    if c.weight == 0 {
      assert after.Keys == m.Keys - {c.address};
      assert |m.Keys - {c.address}| <= |m.Keys|;
    } else if c.address in m {
      assert after.Keys == m.Keys;
    } else {
      assert after.Keys == m.Keys + {c.address};
    }
    assert |after| == |after.Keys| && |m| == |m.Keys|;
  }

  /** The network applying one operation to an account; None where it is refused. */
  function ApplyOp(account: string, s: SignerSet, op: SetOptions): Option<SignerSet> {
    if op.source != account then None
    else if op.signer.Some? && op.signer.value.0 == account then None
    else if op.signer.Some? && Crowds(s.signers, op.signer.value.0, op.signer.value.1) then None
    else Some(SignerSet(
      if op.master.Some? then op.master.value else s.master,
      if op.signer.None? then s.signers else PutSigner(s.signers, Change(op.signer.value.0, op.signer.value.1)),
      if op.low.Some? then op.low.value else s.low,
      if op.medium.Some? then op.medium.value else s.medium,
      if op.high.Some? then op.high.value else s.high))
  }

  /** The operations of an envelope, one after the other. */
  function ApplyOps(account: string, s: SignerSet, ops: seq<SetOptions>): Option<SignerSet> {
    if ops == [] then Some(s) else
      var before := ApplyOps(account, s, ops[..|ops| - 1]);
      if before.None? then None else ApplyOp(account, before.value, ops[|ops| - 1])
  }

  /** The network refuses an operation from another account, one that makes the account's own key
      a signer, and one that adds a signer to twenty. */
  lemma NetworkRefuses(account: string, s: SignerSet, op: SetOptions)
    ensures ApplyOp(account, s, op).None? <==>
            || op.source != account
            || (op.signer.Some? && op.signer.value.0 == account)
            || (op.signer.Some? && op.signer.value.1 > 0 && op.signer.value.0 !in s.signers && |s.signers| >= 20)
  {
  }

  lemma ApplyOneMore(account: string, s: SignerSet, ops: seq<SetOptions>, op: SetOptions)
    requires ApplyOps(account, s, ops).Some?
    ensures ApplyOps(account, s, ops + [op]) == ApplyOp(account, ApplyOps(account, s, ops).value, op)
  {
    assert (ops + [op])[..|ops|] == ops;
  }

  lemma {:induction false} SignerOpsArrive(account: string, s: SignerSet, changes: seq<Change>)
    requires WeightsFit(changes) && |s.signers| <= MAX_SIGNERS
    requires forall i :: 0 <= i < |changes| ==> changes[i].address != account
    ensures ApplyOps(account, s, SignerOps(account, changes)) ==
            if Roomy(s.signers, changes) then Some(s.(signers := SignersAfter(s.signers, changes))) else None
  {
    if changes == [] {
      assert SignersAfter(s.signers, changes[..0]) == s.signers;
    } else {
      var before, last := changes[..|changes| - 1], changes[|changes| - 1];
      SignerOpsArrive(account, s, before);
      var ops, op := SignerOps(account, before), SignerOp(account, last);
      assert SignerOps(account, changes) == ops + [op];
      assert SignersAfter(s.signers, changes) == PutSigner(SignersAfter(s.signers, before), last);
      RoomyOneMore(s.signers, changes);
      if Roomy(s.signers, before) {
        assert before[..|before|] == before;
        var m := SignersAfter(s.signers, before);
        assert |m| <= MAX_SIGNERS;
        CrowdsIff(m, last);
        OneSignerOp(account, s.(signers := m), last);
        ApplyOneMore(account, s, ops, op);
        hide *;
      } else {
        assert (ops + [op])[..|ops|] == ops;
      }
    }
  }

  lemma OneSignerOp(account: string, s: SignerSet, c: Change)
    requires c.weight <= 255 && c.address != account
    ensures ApplyOp(account, s, SignerOp(account, c)) ==
            if Crowds(s.signers, c.address, c.weight) then None else Some(s.(signers := PutSigner(s.signers, c)))
  {
    hide Crowds, PutSigner;
  }

  /** Applied one by one, the operations leave the account with the predicted set, unless
      some change along the way would make one signer too many, which the network refuses;
      no weight is cut by the conversion to a byte. */
  lemma OpsArrive(valid: string -> bool, req: Request)
    requires Verdict(valid, req).None? && |req.current.signers| <= MAX_SIGNERS
    ensures ApplyOps(req.account, req.current, Ops(req)) ==
            if Roomy(req.current.signers, req.changes) then Some(Resulting(req)) else None
  {
    assert forall i :: 0 <= i < |req.changes| ==> GoodAddress(valid, req.account, req.changes[i]);
    assert ThresholdsFit(req) && WeightsFit(req.changes);
    hide LockoutVerdict, SignersAfter, AddressVerdict, ApplyOp, OptionsOp, SignerOps, Roomy, Verdict;
    SignerOpsArrive(req.account, req.current, req.changes);
    var ops := SignerOps(req.account, req.changes);
    if HasOptions(req) {
      assert (ops + [OptionsOp(req)])[..|ops|] == ops;
      if Roomy(req.current.signers, req.changes) {
        OptionsArrive(req, req.current.(signers := Resulting(req).signers));
        hide ApplyOps;
        ApplyOneMore(req.account, req.current, ops, OptionsOp(req));
      }
    } else {
      assert ops + [] == ops;
    }
  }

  lemma OptionsArrive(req: Request, s: SignerSet)
    requires ThresholdsFit(req) && s == req.current.(signers := Resulting(req).signers)
    ensures ApplyOp(req.account, s, OptionsOp(req)) == Some(Resulting(req))
  {
    hide SignersAfter;
  }

  /** The account's home domain after the operations: what the last one to name any says. */
  function DomainAfter(was: string, ops: seq<SetOptions>): string {
    if ops == [] then was
    else if ops[|ops| - 1].homeDomain.Some? then ops[|ops| - 1].homeDomain.value
    else DomainAfter(was, ops[..|ops| - 1])
  }

  lemma {:induction false} SignerOpsLeaveDomain(was: string, account: string, changes: seq<Change>)
    ensures DomainAfter(was, SignerOps(account, changes)) == was
  {
    if changes != [] {
      var ops, last := SignerOps(account, changes[..|changes| - 1]), SignerOp(account, changes[|changes| - 1]);
      SignerOpsLeaveDomain(was, account, changes[..|changes| - 1]);
      assert (ops + [last])[..|ops|] == ops;
    }
  }

  /** The home domain becomes the one asked for, and stays as it was if none was. */
  lemma DomainArrives(req: Request, was: string)
    ensures DomainAfter(was, Ops(req)) == if req.homeDomain.Some? then req.homeDomain.value else was
  {
    var ops := SignerOps(req.account, req.changes);
    SignerOpsLeaveDomain(was, req.account, req.changes);
    hide SignerOps;
    assert (ops + [OptionsOp(req)])[..|ops|] == ops && ops + [] == ops;
  }

  /** What is built never locks the account: its true weight still reaches every threshold. */
  lemma BuiltIsRepairable(valid: string -> bool, req: Request)
    requires Verdict(valid, req).None?
    ensures Repairable(Resulting(req))
  {
    LockoutIsSafe(Resulting(req));
  }

  // ----- undoing a change -----

  /** Weights and thresholds as an account can hold them. */
  predicate OnNetwork(s: SignerSet) {
    && s.master <= 255 && s.low <= 255 && s.medium <= 255 && s.high <= 255
    && |s.signers| <= MAX_SIGNERS
    && forall a :: a in s.signers ==> 1 <= s.signers[a] <= 255
  }

  /** A change taken back, given the map it was made on. */
  function Restore(m: map<string, Weight>, c: Change): Change {
    Change(c.address, if c.address in m then m[c.address] else 0)
  }

  /** The changes taken back one by one, the last one first. */
  function Restores(m: map<string, Weight>, changes: seq<Change>): (r: seq<Change>)
    ensures |r| == |changes|
  {
    if changes == [] then [] else
      var init := changes[..|changes| - 1];
      [Restore(SignersAfter(m, init), changes[|changes| - 1])] + Restores(m, init)
  }

  /** The request that puts back what another one changed. */
  function Undo(req: Request): Request {
    var was := req.current;
    Request(req.account, Resulting(req), true, Restores(was.signers, req.changes),
            Some(was.master), Some(was.low), Some(was.medium), Some(was.high), None)
  }

  predicate Held(m: map<string, Weight>) {
    forall a :: a in m ==> 1 <= m[a] <= 255
  }

  lemma {:induction false} StaysHeld(m: map<string, Weight>, changes: seq<Change>)
    requires Held(m) && WeightsFit(changes)
    ensures Held(SignersAfter(m, changes))
  {
    if changes != [] {
      StaysHeld(m, changes[..|changes| - 1]);
    }
  }

  lemma {:induction false} FirstChange(m: map<string, Weight>, c: Change, rest: seq<Change>)
    ensures SignersAfter(m, [c] + rest) == SignersAfter(PutSigner(m, c), rest)
  {
    var all := [c] + rest;
    if rest == [] {
      assert all[..0] == [];
    } else {
      FirstChange(m, c, rest[..|rest| - 1]);
      assert all[..|all| - 1] == [c] + rest[..|rest| - 1];
    }
  }

  lemma TakenBack(m: map<string, Weight>, c: Change)
    requires Held(m)
    ensures PutSigner(PutSigner(m, c), Restore(m, c)) == m
  {
    var back := PutSigner(PutSigner(m, c), Restore(m, c));
    assert back.Keys == m.Keys;
  }

  /** Taking back the last j changes leaves what there was before them. */
  lemma {:induction false} RestoresRetrace(m: map<string, Weight>, changes: seq<Change>, j: nat)
    requires Held(m) && WeightsFit(changes) && j <= |changes|
    ensures SignersAfter(SignersAfter(m, changes), Restores(m, changes)[..j]) == SignersAfter(m, changes[..|changes| - j])
  {
    var rs := Restores(m, changes);
    if j == 0 {
      assert rs[..0] == [] && changes[..|changes|] == changes;
    } else {
      var init := changes[..|changes| - 1];
      var rest := Restores(m, init)[..j - 1];
      assert rs[..j] == [rs[0]] + rest;
      LastTakenBack(m, changes, rest);
      RestoresRetrace(m, init, j - 1);
      assert init[..|init| - (j - 1)] == changes[..|changes| - j];
      hide *;
    }
  }

  lemma LastTakenBack(m: map<string, Weight>, changes: seq<Change>, rest: seq<Change>)
    requires Held(m) && WeightsFit(changes) && changes != []
    ensures SignersAfter(SignersAfter(m, changes), [Restores(m, changes)[0]] + rest)
         == SignersAfter(SignersAfter(m, changes[..|changes| - 1]), rest)
  {
    var init, last := changes[..|changes| - 1], changes[|changes| - 1];
    var before := SignersAfter(m, init);
    var back := Restore(before, last);
    assert Restores(m, changes)[0] == back && SignersAfter(m, changes) == PutSigner(before, last);
    StaysHeld(m, init);
    TakenBack(before, last);
    hide *;
    FirstChange(PutSigner(before, last), back, rest);
  }

  lemma UndoRestoresSigners(m: map<string, Weight>, changes: seq<Change>)
    requires Held(m) && WeightsFit(changes)
    ensures SignersAfter(SignersAfter(m, changes), Restores(m, changes)) == m
    ensures Roomy(m, changes) ==> Roomy(SignersAfter(m, changes), Restores(m, changes))
  {
    var now, rs := SignersAfter(m, changes), Restores(m, changes);
    RestoresRetrace(m, changes, |changes|);
    assert rs[..|changes|] == rs && changes[..0] == [];
    if Roomy(m, changes) {
      forall j | 0 <= j <= |rs| ensures |SignersAfter(now, rs[..j])| <= MAX_SIGNERS {
        RestoresRetrace(m, changes, j);
      }
    }
  }

  lemma {:induction false} RestoresAreGood(m: map<string, Weight>, changes: seq<Change>, valid: string -> bool, account: string)
    requires Held(m) && WeightsFit(changes)
    requires forall i :: 0 <= i < |changes| ==> GoodAddress(valid, account, changes[i])
    ensures WeightsFit(Restores(m, changes))
    ensures forall i :: 0 <= i < |changes| ==> GoodAddress(valid, account, Restores(m, changes)[i])
  {
    if changes != [] {
      var init := changes[..|changes| - 1];
      RestoresAreGood(m, init, valid, account);
      StaysHeld(m, init);
      assert GoodAddress(valid, account, changes[|changes| - 1]);
    }
  }

  /** Undoing an accepted change asks for exactly the old set, is accepted exactly when the
      old set was itself one the lockout check passes, and finds an account whose weight
      reaches the high threshold that a signer change needs; and if the network took the
      change, it takes the undoing, which leads back. */
  lemma EveryChangeCanBeUndone(valid: string -> bool, req: Request)
    requires Verdict(valid, req).None? && OnNetwork(req.current)
    ensures Resulting(Undo(req)) == req.current
    ensures Verdict(valid, Undo(req)).None? <==> LockoutVerdict(req.current).None?
    ensures TrueWeight(Undo(req).current) >= Undo(req).current.high
    ensures Verdict(valid, Undo(req)).None? && ApplyOps(req.account, req.current, Ops(req)).Some? ==>
              ApplyOps(req.account, Resulting(req), Ops(Undo(req))) == Some(req.current)
  {
    hide SignersAfter, LockoutVerdict, AddressVerdict, RangeVerdict, WeightsFit, Restores, Roomy, ApplyOps, Ops, TrueWeight,
      OnNetwork;
    UndoLeadsBack(valid, req);
    BuiltIsRepairable(valid, req);
    UndoIsWellFormed(valid, req);
    OpsArrive(valid, req);
    if Verdict(valid, Undo(req)).None? && Roomy(req.current.signers, req.changes) {
      hide Verdict;
      OpsArrive(valid, Undo(req));
    }
  }

  lemma UndoLeadsBack(valid: string -> bool, req: Request)
    requires Verdict(valid, req).None? && OnNetwork(req.current)
    ensures Resulting(Undo(req)) == req.current && |req.current.signers| <= MAX_SIGNERS
    ensures Roomy(req.current.signers, req.changes) ==>
              Roomy(Undo(req).current.signers, Undo(req).changes) && |Undo(req).current.signers| <= MAX_SIGNERS
  {
    assert Held(req.current.signers) && WeightsFit(req.changes);
    UndoRestoresSigners(req.current.signers, req.changes);
    assert req.changes[..|req.changes|] == req.changes;
    hide SignersAfter, Restores, LockoutVerdict;
  }

  lemma UndoIsWellFormed(valid: string -> bool, req: Request)
    requires Verdict(valid, req).None? && OnNetwork(req.current)
    ensures RangeVerdict(Undo(req)).None? && AddressVerdict(valid, req.account, Undo(req).changes).None?
  {
    assert forall i :: 0 <= i < |req.changes| ==> GoodAddress(valid, req.account, req.changes[i]);
    hide LockoutVerdict, SignersAfter, Restores;
    RestoresAreGood(req.current.signers, req.changes, valid, req.account);
  }
}
