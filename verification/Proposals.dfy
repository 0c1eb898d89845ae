/**
 The life of one multisig proposal: signatures collected, the signer set read again, the
 sequence guarded, the envelope sent, the proposal resolved; by any number of executors at
 once, against an account that anybody may change in the meantime.

 A run is a list of steps. What an executor reads it reads in one step and uses in later
 ones. The proposal's clock is the database's and the network's is its own. The network
 includes only an envelope that somebody submitted, with signatures that authorise it then.
 */
module Proposals {
  import opened Common
  import opened Multisig
  import opened Signatures

  datatype Status = Open | Executed | Failed | Cancelled | Expired

  /** What a proposal was closed by. Those with a `sub` record the network's reply to that
      submission; the sequence guard notes how many submissions there had been when it read
      the account, and whether the envelope was on the ledger. */
  datatype Cause =
    | NotClosed
    | Accepted(sub: nat)
    | LookedUp(sub: nat)
    | SequenceMoved(before: nat, onLedger: bool)
    | Spent(sub: nat, code: string)
    | Trapped(sub: nat)
    | Withdrawn
    | WindowPassed

  /** The network's reply to a submission. */
  datatype Reply =
    | Accept                // included, and it succeeded
    | Found                 // the answer was lost, and a lookup found it on the ledger
    | Reject(code: string)
    | IncludedAndFailed     // a contract call's own failure
    | NoAnswer              // the outcome is unknown

  /** How far an executor has come. Signer sets and rows only accumulate, so what was read is
      remembered by how many there were: `start` and `seen` index the account's signer sets,
      `rows` and `attached` count stored signatures. */
  datatype Progress =
    | Loaded(start: nat)
    | SawSigners(start: nat, seen: nat)
    | Weighed(start: nat, seen: nat, rows: nat)
    | Guarded(start: nat, seen: nat, rows: nat)
    | Assembled(start: nat, seen: nat, rows: nat, attached: nat)
    | Sent(start: nat, seen: nat, rows: nat, attached: nat, sub: nat)
    | ToResolve(status: Status, cause: Cause)
    | Done

  /** The envelope with signatures on it, submitted by an executor or by anybody else who
      holds the signatures. */
  datatype Submission = Submission(rows: seq<Row>, sender: Option<nat>)

  /** Which submission was included, and which signer set the account then had. */
  datatype Landing = Landing(sub: nat, signers: nat)

  /** The envelope, which never changes. */
  datatype Envelope = Envelope(crypto: Crypto, hash: string, treasury: string, sourceSeq: int, maxTime: int)

  datatype World = World(
    status: Status, cause: Cause, closings: nat,
    rows: seq<Row>,
    executors: map<nat, Progress>,
    storeNow: int, networkNow: int,
    given: seq<Row>,                // every signature anybody has made
    sent: seq<Submission>,
    sequence: int,
    signerSets: seq<SignerSet>,     // every signer set the account has had, the current one last
    landing: Option<Landing>,
    succeeded: nat, failed: nat)    // times the envelope was included

  datatype Step =
    | Tick(storeNow: int, networkNow: int)
    | ChangeSigners(current: SignerSet)
    | MoveSequence(to: int)
    | Give(row: Row)
    | AddSignature(row: Row)
    | Offer(rows: seq<Row>)
    | Include(sub: nat, success: bool)
    | Cancel
    | Expire
    | Load(e: nat)
    | ReadSigners(e: nat)
    | ReadRows(e: nat, view: View)
    | ReadSequence(e: nat)
    | ReadRowsAgain(e: nat)
    | Send(e: nat)
    | Hear(e: nat, reply: Reply)
    | Resolve(e: nat)
    | Stop(e: nat)

  // ----- single steps -----

  function Included(s: World): nat {
    s.succeeded + s.failed
  }

  predicate SpentCode(code: string) {
    code == "tx_failed" || code == "tx_fee_bump_inner_failed" || code == "tx_bad_seq" || code == "tx_too_late"
  }

  /** The network only answers what is so: accepted means that it succeeded, found that it is
      there, a failure code that it was included and failed, a bad sequence that the account
      is past it, too late that time has run out. */
  predicate True(p: Envelope, s: World, r: Reply) {
    match r
    case Accept => s.succeeded > 0
    case Found => Included(s) > 0
    case Reject(code) =>
      && (code == "tx_failed" || code == "tx_fee_bump_inner_failed" ==> s.failed > 0)
      && (code == "tx_bad_seq" ==> s.sequence >= p.sourceSeq)
      && (code == "tx_too_late" ==> s.networkNow > p.maxTime)
    case IncludedAndFailed => s.failed > 0
    case NoAnswer => true
  }

  /** What an executor does with a reply. */
  function After(r: Reply, sub: nat): Progress {
    match r
    case Accept => ToResolve(Executed, Accepted(sub))
    case Found => ToResolve(Executed, LookedUp(sub))
    case Reject(code) =>
      if !SpentCode(code) then Done
      else if code == "tx_too_late" then ToResolve(Expired, Spent(sub, code))
      else ToResolve(Failed, Spent(sub, code))
    case IncludedAndFailed => ToResolve(Failed, Trapped(sub))
    case NoAnswer => Done
  }

  /** The conditional update: only an open proposal is closed. */
  function Close(s: World, status: Status, cause: Cause): World {
    if s.status == Open && status != Open then s.(status := status, cause := cause, closings := s.closings + 1) else s
  }

  function Goes(s: World, e: nat, to: Progress): World {
    s.(executors := s.executors[e := to])
  }

  /** One row for each signer. */
  function NewRow(rows: seq<Row>, row: Row): seq<Row> {
    if exists i :: 0 <= i < |rows| && rows[i].signer == row.signer then rows else rows + [row]
  }

  ghost predicate Allows(p: Envelope, current: SignerSet, rows: seq<Row>) {
    Authorised(p.crypto, p.hash, rows, current, p.treasury)
  }

  /** What the network does with a submission, whenever it gets to it. */
  ghost predicate Includable(p: Envelope, s: World, sub: nat) {
    && s.sequence + 1 == p.sourceSeq && s.networkNow <= p.maxTime
    && sub < |s.sent| && s.signerSets != [] && Allows(p, s.signerSets[|s.signerSets| - 1], s.sent[sub].rows)
  }

  /** A step that is not an executor's: the clocks, the account, the network, the members. */
  ghost function Outside(p: Envelope, s: World, step: Step): Option<World> {
    match step
    case Tick(store, network) =>
      if s.storeNow <= store && s.networkNow <= network then Some(s.(storeNow := store, networkNow := network)) else None
    case ChangeSigners(current) => Some(s.(signerSets := s.signerSets + [current]))
    case MoveSequence(to) => if s.sequence <= to then Some(s.(sequence := to)) else None
    case Give(row) => Some(s.(given := s.given + [row]))
    case AddSignature(row) =>
      if s.status == Open && p.maxTime > s.storeNow && row in s.given
      then Some(s.(rows := NewRow(s.rows, row))) else None
    case Offer(rows) => if Among(rows, s.given) then Some(s.(sent := s.sent + [Submission(rows, None)])) else None
    case Include(sub, success) =>
      if !Includable(p, s, sub) then None
      else
        var t := s.(sequence := p.sourceSeq, landing := Some(Landing(sub, |s.signerSets| - 1)));
        Some(if success then t.(succeeded := s.succeeded + 1) else t.(failed := s.failed + 1))
    case Cancel => Some(Close(s, Cancelled, Withdrawn))
    case Expire => if p.maxTime <= s.storeNow then Some(Close(s, Expired, WindowPassed)) else None
    case _ => None
  }

  /** A step of one executor. Loading also expires what is due first; that is a step of its
      own here, and may come at any time. The signing state is any true one. */
  ghost function Own(p: Envelope, s: World, step: Step): Option<World> {
    match step
    case Load(e) =>
      if e in s.executors || s.signerSets == [] then None
      else Some(Goes(s, e, if s.status == Open then Loaded(|s.signerSets| - 1) else Done))
    case ReadSigners(e) =>
      if e in s.executors && s.executors[e].Loaded? && s.signerSets != []
      then Some(Goes(s, e, SawSigners(s.executors[e].start, |s.signerSets| - 1))) else None
    case ReadRows(e, view) =>
      if && e in s.executors && s.executors[e].SawSigners? && s.executors[e].seen < |s.signerSets|
         && IsView(p.crypto, p.hash, s.rows, s.signerSets[s.executors[e].seen], p.treasury, view)
      then
        var x := s.executors[e];
        Some(Goes(s, e, if Ready(view) then Weighed(x.start, x.seen, |s.rows|) else Done))
      else None
    case ReadSequence(e) =>
      if e in s.executors && s.executors[e].Weighed? then
        var x := s.executors[e];
        Some(Goes(s, e, if s.sequence >= p.sourceSeq
                        then ToResolve(Failed, SequenceMoved(|s.sent|, s.landing.Some?))
                        else Guarded(x.start, x.seen, x.rows)))
      else None
    case ReadRowsAgain(e) =>
      if e in s.executors && s.executors[e].Guarded? then
        var x := s.executors[e];
        Some(Goes(s, e, Assembled(x.start, x.seen, x.rows, |s.rows|)))
      else None
    case Send(e) =>
      if e in s.executors && s.executors[e].Assembled? && s.executors[e].attached <= |s.rows| then
        var x := s.executors[e];
        Some(Goes(s.(sent := s.sent + [Submission(s.rows[..x.attached], Some(e))]), e,
                  Sent(x.start, x.seen, x.rows, x.attached, |s.sent|)))
      else None
    case Hear(e, reply) =>
      if e in s.executors && s.executors[e].Sent? && True(p, s, reply)
      then Some(Goes(s, e, After(reply, s.executors[e].sub))) else None
    case Resolve(e) =>
      if e in s.executors && s.executors[e].ToResolve?
      then Some(Goes(Close(s, s.executors[e].status, s.executors[e].cause), e, Done)) else None
    case Stop(e) => if e in s.executors then Some(Goes(s, e, Done)) else None
    case _ => None
  }

  ghost function Apply(p: Envelope, s: World, step: Step): Option<World> {
    if Outside(p, s, step).Some? then Outside(p, s, step) else Own(p, s, step)
  }

  /** Every step of a list, in order; None where one is not possible. */
  ghost function Run(p: Envelope, s: World, steps: seq<Step>): Option<World> {
    if steps == [] then Some(s) else
      var before := Run(p, s, steps[..|steps| - 1]);
      if before.None? then None else Apply(p, before.value, steps[|steps| - 1])
  }

  /** A proposal just opened: nothing signed, nothing sent, the account not behind the
      sequence number it was built on. */
  ghost predicate Opened(p: Envelope, s: World) {
    && s.status == Open && s.cause == NotClosed && s.closings == 0
    && s.rows == [] && s.given == [] && s.sent == [] && s.executors == map[] && |s.signerSets| > 0
    && s.sequence >= p.sourceSeq - 1
    && s.landing == None && s.succeeded == 0 && s.failed == 0
  }

  // ----- what every step keeps -----

  /** The envelope can never again be included. */
  predicate Dead(p: Envelope, s: World) {
    s.sequence >= p.sourceSeq || s.networkNow > p.maxTime
  }

  /** What the closing of a proposal claims, and that it is so. */
  predicate Justified(p: Envelope, s: World, status: Status, cause: Cause) {
    match cause
    case NotClosed => status == Open
    case Accepted(sub) => status == Executed && sub < |s.sent| && s.succeeded > 0
    case LookedUp(sub) => status == Executed && sub < |s.sent| && Included(s) > 0
    case SequenceMoved(before, onLedger) =>
      && status == Failed && before <= |s.sent| && Dead(p, s)
      && (onLedger <==> s.landing.Some?)
      && (s.landing.Some? ==> s.landing.value.sub < before)
    case Spent(sub, code) =>
      && SpentCode(code) && status == (if code == "tx_too_late" then Expired else Failed)
      && sub < |s.sent| && Dead(p, s) && True(p, s, Reject(code))
    case Trapped(sub) => status == Failed && sub < |s.sent| && s.failed > 0 && Dead(p, s)
    case Withdrawn => status == Cancelled
    case WindowPassed => status == Expired
  }

  ghost predicate EnoughThen(p: Envelope, s: World, start: nat, seen: nat, rows: nat) {
    && start <= seen < |s.signerSets|
    && rows <= |s.rows|
    && Enough(p.crypto, p.hash, s.rows[..rows], s.signerSets[seen], p.treasury)
  }

  ghost predicate Sound(p: Envelope, s: World, x: Progress) {
    match x
    case Loaded(start) => start < |s.signerSets|
    case SawSigners(start, seen) => start <= seen < |s.signerSets|
    case Weighed(start, seen, rows) => EnoughThen(p, s, start, seen, rows)
    case Guarded(start, seen, rows) => EnoughThen(p, s, start, seen, rows)
    case Assembled(start, seen, rows, attached) => EnoughThen(p, s, start, seen, rows) && rows <= attached <= |s.rows|
    case Sent(start, seen, rows, attached, sub) =>
      && EnoughThen(p, s, start, seen, rows) && rows <= attached <= |s.rows|
      && sub < |s.sent| && s.sent[sub].rows == s.rows[..attached]
    case ToResolve(status, cause) => status != Open && Justified(p, s, status, cause)
    case Done => true
  }

  /** What was included had been submitted, and had the weight in the account's eyes then. */
  ghost predicate LandedSoundly(p: Envelope, s: World) {
    && (s.landing.Some? <==> Included(s) == 1)
    && (s.landing.Some? ==>
          && s.landing.value.sub < |s.sent| && s.landing.value.signers < |s.signerSets|
          && Allows(p, s.signerSets[s.landing.value.signers], s.sent[s.landing.value.sub].rows)
          && s.sequence >= p.sourceSeq)
  }

  predicate AllGiven(s: World) {
    && Among(s.rows, s.given)
    && forall i :: 0 <= i < |s.sent| ==> Among(s.sent[i].rows, s.given)
  }

  ghost predicate Inv(p: Envelope, s: World) {
    && |s.signerSets| > 0
    && s.sequence >= p.sourceSeq - 1
    && Included(s) <= 1
    && LandedSoundly(p, s)
    && AllGiven(s)
    && s.closings == (if s.status == Open then 0 else 1)
    && Justified(p, s, s.status, s.cause)
    && forall e :: e in s.executors ==> Sound(p, s, s.executors[e])
  }

  /** Later: clocks and sequence no lower, everything that accumulates only added to, nothing
      taken back from the ledger, and nothing put there once it is too late. */
  ghost predicate Later(p: Envelope, s: World, t: World) {
    && s.networkNow <= t.networkNow && s.sequence <= t.sequence
    && s.signerSets <= t.signerSets && s.rows <= t.rows && s.sent <= t.sent
    && s.succeeded <= t.succeeded && s.failed <= t.failed
    && (s.landing.Some? ==> t.landing == s.landing)
    && (Dead(p, s) ==> t.landing == s.landing)
  }

  lemma StaysJustified(p: Envelope, s: World, t: World, status: Status, cause: Cause)
    requires Later(p, s, t) && Justified(p, s, status, cause)
    ensures Justified(p, t, status, cause)
  {
  }

  lemma StaysSound(p: Envelope, s: World, t: World, x: Progress)
    requires Later(p, s, t) && Sound(p, s, x)
    ensures Sound(p, t, x)
  {
    hide Enough;
    if x.ToResolve? {
      StaysJustified(p, s, t, x.status, x.cause);
    } else if x.Weighed? || x.Guarded? || x.Assembled? || x.Sent? {
      assert t.signerSets[x.seen] == s.signerSets[x.seen];
      assert t.rows[..x.rows] == s.rows[..x.rows];
      if x.Sent? {
        assert t.rows[..x.attached] == s.rows[..x.attached];
      }
    }
  }

  lemma AllStaySound(p: Envelope, s: World, t: World)
    requires Later(p, s, t) && s.executors == t.executors
    requires forall e :: e in s.executors ==> Sound(p, s, s.executors[e])
    ensures forall e :: e in t.executors ==> Sound(p, t, t.executors[e])
  {
    hide Sound, Later;
    forall e | e in t.executors ensures Sound(p, t, t.executors[e]) {
      StaysSound(p, s, t, s.executors[e]);
    }
  }

  lemma OutsideIsLater(p: Envelope, s: World, step: Step)
    requires Inv(p, s) && Outside(p, s, step).Some?
    ensures Later(p, s, Outside(p, s, step).value) && Outside(p, s, step).value.executors == s.executors
  {
    hide Sound, Authorised, AllGiven;
  }

  lemma StaysLanded(p: Envelope, s: World, t: World)
    requires LandedSoundly(p, s) && Later(p, s, t) && Included(s) == Included(t) && s.landing == t.landing
    ensures LandedSoundly(p, t)
  {
    hide Authorised;
    if s.landing.Some? {
      assert t.sent[s.landing.value.sub] == s.sent[s.landing.value.sub];
      assert t.signerSets[s.landing.value.signers] == s.signerSets[s.landing.value.signers];
    }
  }

  lemma OutsideKeeps(p: Envelope, s: World, step: Step)
    requires Inv(p, s) && Outside(p, s, step).Some?
    ensures Inv(p, Outside(p, s, step).value)
  {
    var t := Outside(p, s, step).value;
    OutsideIsLater(p, s, step);
    AllStaySound(p, s, t);
    StaysJustified(p, s, t, s.status, s.cause);
    if !step.Include? {
      StaysLanded(p, s, t);
    }
    GivenStays(p, s, step);
    hide Sound, NewRow, Authorised, AllGiven, Later;
  }

  lemma GivenStays(p: Envelope, s: World, step: Step)
    requires AllGiven(s) && Outside(p, s, step).Some?
    ensures AllGiven(Outside(p, s, step).value)
  {
    hide Authorised;
  }

  lemma GoesKeeps(p: Envelope, s: World, e: nat, x: Progress)
    requires Inv(p, s) && Sound(p, s, x)
    ensures Inv(p, Goes(s, e, x))
  {
    var t := Goes(s, e, x);
    assert Later(p, s, t);
    forall d | d in t.executors ensures Sound(p, t, t.executors[d]) {
      StaysSound(p, s, t, if d == e then x else s.executors[d]);
    }
    StaysLanded(p, s, t);
    StaysJustified(p, s, t, s.status, s.cause);
    hide Sound, Justified, LandedSoundly;
  }

  lemma CloseKeeps(p: Envelope, s: World, status: Status, cause: Cause)
    requires Inv(p, s) && status != Open && Justified(p, s, status, cause)
    ensures Inv(p, Close(s, status, cause))
  {
    var t := Close(s, status, cause);
    assert Later(p, s, t);
    AllStaySound(p, s, t);
    StaysLanded(p, s, t);
    StaysJustified(p, s, t, status, cause);
    StaysJustified(p, s, t, s.status, s.cause);
    hide Sound, Justified, LandedSoundly, Later;
  }

  /** A reply that is so justifies what the executor then records. */
  lemma ReplyIsSound(p: Envelope, s: World, r: Reply, sub: nat)
    requires Inv(p, s) && True(p, s, r) && sub < |s.sent|
    ensures Sound(p, s, After(r, sub))
  {
    hide Authorised, AllGiven;
  }

  lemma ReadingKeeps(p: Envelope, s: World, step: Step)
    requires Inv(p, s) && Own(p, s, step).Some?
    requires step.Load? || step.ReadSigners? || step.ReadRows? || step.ReadSequence? || step.ReadRowsAgain?
    ensures Inv(p, Own(p, s, step).value)
  {
    hide Enough, IsView;
    var t := Own(p, s, step).value;
    var x := t.executors[step.e];
    assert t == Goes(s, step.e, x);
    assert step.e in s.executors ==> Sound(p, s, s.executors[step.e]);
    assert s.rows[..|s.rows|] == s.rows;
    if step.ReadRows? {
      ViewIsOnRecord(p.crypto, p.hash, s.rows, s.signerSets[s.executors[step.e].seen], p.treasury, step.view);
    }
    GoesKeeps(p, s, step.e, x);
  }

  lemma SendKeeps(p: Envelope, s: World, e: nat)
    requires Inv(p, s) && Own(p, s, Send(e)).Some?
    ensures Inv(p, Own(p, s, Send(e)).value)
  {
    hide Enough;
    var x := s.executors[e];
    assert Sound(p, s, x);
    var u := s.(sent := s.sent + [Submission(s.rows[..x.attached], Some(e))]);
    assert Later(p, s, u);
    AllStaySound(p, s, u);
    StaysLanded(p, s, u);
    StaysJustified(p, s, u, s.status, s.cause);
    forall i | 0 <= i < |u.sent| ensures Among(u.sent[i].rows, u.given) {
      assert i < |s.sent| ==> Among(s.sent[i].rows, s.given);
      assert Among(s.rows, s.given);
    }
    assert Inv(p, u);
    StaysSound(p, s, u, x);
    assert u.sent[|s.sent|].rows == u.rows[..x.attached];
    GoesKeeps(p, u, e, Sent(x.start, x.seen, x.rows, x.attached, |s.sent|));
  }

  lemma OwnKeeps(p: Envelope, s: World, step: Step)
    requires Inv(p, s) && Own(p, s, step).Some?
    ensures Inv(p, Own(p, s, step).value)
  {
    if step.Send? {
      SendKeeps(p, s, step.e);
    } else if step.Hear? {
      assert Sound(p, s, s.executors[step.e]);
      ReplyIsSound(p, s, step.reply, s.executors[step.e].sub);
      GoesKeeps(p, s, step.e, After(step.reply, s.executors[step.e].sub));
    } else if step.Resolve? {
      var x := s.executors[step.e];
      assert Sound(p, s, x);
      CloseKeeps(p, s, x.status, x.cause);
      GoesKeeps(p, Close(s, x.status, x.cause), step.e, Done);
    } else if step.Stop? {
      GoesKeeps(p, s, step.e, Done);
    } else {
      ReadingKeeps(p, s, step);
    }
  }

  lemma OpenedIsSound(p: Envelope, s: World)
    requires Opened(p, s)
    ensures Inv(p, s)
  {
  }

  lemma {:induction false} RunKeeps(p: Envelope, s: World, steps: seq<Step>)
    requires Inv(p, s) && Run(p, s, steps).Some?
    ensures Inv(p, Run(p, s, steps).value)
  {
    hide Inv, Outside, Own;
    if steps != [] {
      var init, last := steps[..|steps| - 1], steps[|steps| - 1];
      RunKeeps(p, s, init);
      var t := Run(p, s, init).value;
      if Outside(p, t, last).Some? {
        OutsideKeeps(p, t, last);
      } else {
        OwnKeeps(p, t, last);
      }
    }
  }
}
