/** What holds of a proposal over whole runs, and exactly where it stops holding. */
module ProposalTheorems {
  import opened Common
  import opened Multisig
  import opened Signatures
  import opened Proposals

  // ----- finality -----

  lemma ClosedStep(p: Envelope, s: World, step: Step)
    requires s.status != Open && Apply(p, s, step).Some?
    ensures var t := Apply(p, s, step).value; t.status == s.status && t.cause == s.cause && t.closings == s.closings
  {
    hide Enough, IsView, Authorised;
  }

  lemma {:induction false} ClosedStays(p: Envelope, s: World, steps: seq<Step>)
    requires s.status != Open && Run(p, s, steps).Some?
    ensures var t := Run(p, s, steps).value; t.status == s.status && t.cause == s.cause && t.closings == s.closings
  {
    hide Apply;
    if steps != [] {
      var init := steps[..|steps| - 1];
      ClosedStays(p, s, init);
      ClosedStep(p, Run(p, s, init).value, steps[|steps| - 1]);
    }
  }

  lemma DeadStep(p: Envelope, s: World, step: Step)
    requires Dead(p, s) && Apply(p, s, step).Some?
    ensures var t := Apply(p, s, step).value;
            Dead(p, t) && t.succeeded == s.succeeded && t.failed == s.failed && t.landing == s.landing
  {
    hide Enough, IsView, Authorised;
  }

  /** Past its sequence number or its time, an envelope never lands. */
  lemma {:induction false} DeadNeverLands(p: Envelope, s: World, steps: seq<Step>)
    requires Dead(p, s) && Run(p, s, steps).Some?
    ensures var t := Run(p, s, steps).value;
            Dead(p, t) && t.succeeded == s.succeeded && t.failed == s.failed && t.landing == s.landing
  {
    hide Apply;
    if steps != [] {
      var init := steps[..|steps| - 1];
      DeadNeverLands(p, s, init);
      DeadStep(p, Run(p, s, init).value, steps[|steps| - 1]);
    }
  }

  predicate EndsIt(cause: Cause) {
    cause.SequenceMoved? || cause.Spent? || cause.Trapped?
  }

  lemma EndedIsDead(p: Envelope, s: World)
    requires Inv(p, s)
    ensures EndsIt(s.cause) ==> Dead(p, s)
    ensures s.closings <= 1 && Included(s) <= 1
    ensures s.status == Executed ==> Included(s) == 1
  {
    hide Sound, Authorised, AllGiven;
  }

  /**
   Finality, in every run from a proposal's opening, split anywhere: it is closed at most
   once and stays as it was closed; the envelope is included at most once however many
   execute it; Executed means that it is on the ledger; and once closed by the sequence
   guard, by a spent rejection or by a failed call, it is never included afterwards.
   */
  lemma ProposalIsFinal(p: Envelope, start: World, before: seq<Step>, after: seq<Step>)
    requires Opened(p, start) && Run(p, start, before).Some?
    requires Run(p, Run(p, start, before).value, after).Some?
    ensures var s := Run(p, start, before).value;
            var t := Run(p, s, after).value;
            && t.closings <= 1 && Included(t) <= 1
            && (s.status != Open ==> t.status == s.status && t.cause == s.cause && t.closings == s.closings)
            && (t.status == Executed ==> Included(t) == 1)
            && (EndsIt(s.cause) ==> t.succeeded == s.succeeded && t.failed == s.failed)
  {
    OpenedIsSound(p, start);
    RunKeeps(p, start, before);
    var s := Run(p, start, before).value;
    RunKeeps(p, s, after);
    EndedIsDead(p, s);
    EndedIsDead(p, Run(p, s, after).value);
    hide Run, Inv, Opened;
    if s.status != Open {
      ClosedStays(p, s, after);
    }
    if Dead(p, s) {
      DeadNeverLands(p, s, after);
    }
  }

  // ----- what Executed and Failed say about the ledger -----

  lemma CauseTells(p: Envelope, s: World)
    requires Inv(p, s)
    ensures s.cause.Accepted? ==> s.status == Executed && s.succeeded == 1
    ensures s.status == Executed && s.failed == 1 ==> s.cause.LookedUp?
    ensures s.cause.Trapped? ==> s.succeeded == 0
    ensures s.status == Failed && s.succeeded == 1 ==>
              (s.cause.SequenceMoved? && s.cause.onLedger) || (s.cause.Spent? && s.cause.code == "tx_bad_seq")
    ensures s.cause.SequenceMoved? ==> (s.cause.onLedger <==> Included(s) == 1)
    ensures s.landing.Some? ==> s.landing.value.sub < |s.sent|
    ensures s.cause.SequenceMoved? && s.landing.Some? ==> s.landing.value.sub < s.cause.before
  {
    hide Sound, Authorised, AllGiven;
  }

  /**
   Executed, in every run: recorded from the network's acceptance, it means that the envelope
   succeeded; an executed proposal whose envelope failed was recorded from a lookup.
   */
  lemma ExecutedTells(p: Envelope, start: World, steps: seq<Step>)
    requires Opened(p, start) && Run(p, start, steps).Some?
    ensures var t := Run(p, start, steps).value;
            && (t.cause.Accepted? ==> t.succeeded == 1)
            && (t.status == Executed ==> (t.failed == 0 <==> t.succeeded == 1) && (t.failed == 1 ==> t.cause.LookedUp?))
  {
    OpenedIsSound(p, start);
    RunKeeps(p, start, steps);
    CauseTells(p, Run(p, start, steps).value);
    EndedIsDead(p, Run(p, start, steps).value);
    hide Run, Inv, Opened;
  }

  /**
   Failed, in every run: closed by the sequence guard, the envelope is on the ledger if and
   only if it was when the guard read the account; then it was submitted before that
   reading, and what came of that submission was never recorded. So with nothing submitted
   before the reading, failed means never landed. And of all failed proposals only these and
   those refused for their sequence number can have succeeded.
   */
  lemma FailedTells(p: Envelope, start: World, steps: seq<Step>)
    requires Opened(p, start) && Run(p, start, steps).Some?
    ensures var t := Run(p, start, steps).value;
            && (t.cause.SequenceMoved? ==>
                  && (Included(t) == 1 <==> t.cause.onLedger)
                  && (Included(t) == 1 ==> t.landing.Some? && t.landing.value.sub < t.cause.before)
                  && (t.cause.before == 0 ==> Included(t) == 0))
            && (t.status == Failed && t.succeeded == 1 ==>
                  t.cause.SequenceMoved? || (t.cause.Spent? && t.cause.code == "tx_bad_seq"))
  {
    OpenedIsSound(p, start);
    RunKeeps(p, start, steps);
    var t := Run(p, start, steps).value;
    CauseTells(p, t);
    EndedIsDead(p, t);
    assert t.landing.Some? <==> Included(t) == 1;
    hide Run, Inv, Opened;
  }

  // ----- who could have landed it -----

  /** In every run, what landed had been submitted, with signatures that somebody gave, and
      with the medium threshold reached by signers the account had when it landed. */
  lemma LandedWithWeight(p: Envelope, start: World, steps: seq<Step>)
    requires Opened(p, start) && Run(p, start, steps).Some?
    ensures var t := Run(p, start, steps).value;
            Included(t) > 0 ==>
              && t.landing.Some? && t.landing.value.sub < |t.sent| && t.landing.value.signers < |t.signerSets|
              && var rows, current := t.sent[t.landing.value.sub].rows, t.signerSets[t.landing.value.signers];
                 && Authorised(p.crypto, p.hash, rows, current, p.treasury)
                 && Among(rows, t.given)
                 && exists a, r ::
                      a in Summary(current, p.treasury) && r in t.given && Counts(p.crypto, p.hash, Decorate(p.crypto, r), a)
  {
    OpenedIsSound(p, start);
    RunKeeps(p, start, steps);
    var t := Run(p, start, steps).value;
    if Included(t) > 0 {
      var rows, current := t.sent[t.landing.value.sub].rows, t.signerSets[t.landing.value.signers];
      assert Allows(p, current, rows);
      AuthorisedIsSigned(p.crypto, p.hash, rows, current, p.treasury);
      hide Run, Opened, Authorised, Sound;
    }
  }

  /** Nobody signs anything more and the account's signers stay as they are. */
  predicate Quiet(steps: seq<Step>) {
    forall i :: 0 <= i < |steps| ==> !steps[i].Give? && !steps[i].ChangeSigners?
  }

  ghost predicate Stuck(p: Envelope, s: World) {
    s.signerSets != [] && (Dead(p, s) || !Allows(p, s.signerSets[|s.signerSets| - 1], s.given))
  }

  lemma MoreIsAllowed(p: Envelope, current: SignerSet, rows: seq<Row>, more: seq<Row>)
    requires Allows(p, current, rows) && Among(rows, more)
    ensures Allows(p, current, more)
  {
    MoreRows(p.crypto, p.hash, rows, more, Summary(current, p.treasury));
  }

  lemma OwnLeavesTheChain(p: Envelope, s: World, step: Step)
    requires Own(p, s, step).Some?
    ensures var t := Own(p, s, step).value;
            && t.sequence == s.sequence && t.networkNow == s.networkNow && t.signerSets == s.signerSets
            && t.given == s.given && Included(t) == Included(s)
  {
    hide IsView;
  }

  lemma StuckStep(p: Envelope, s: World, step: Step)
    requires Inv(p, s) && Stuck(p, s) && !step.Give? && !step.ChangeSigners? && Apply(p, s, step).Some?
    ensures var t := Apply(p, s, step).value; Stuck(p, t) && Included(t) == Included(s)
  {
    assert AllGiven(s);
    hide Inv, Allows, Own, Among;
    if Outside(p, s, step).None? {
      OwnLeavesTheChain(p, s, step);
    } else if step.Include? {
      MoreIsAllowed(p, s.signerSets[|s.signerSets| - 1], s.sent[step.sub].rows, s.given);
    }
  }

  lemma {:induction false} StuckStays(p: Envelope, s: World, steps: seq<Step>)
    requires Inv(p, s) && Stuck(p, s) && Quiet(steps) && Run(p, s, steps).Some?
    ensures var t := Run(p, s, steps).value; Stuck(p, t) && Included(t) == Included(s)
  {
    hide Inv, Stuck, Apply;
    if steps != [] {
      var init := steps[..|steps| - 1];
      StuckStays(p, s, init);
      RunKeeps(p, s, init);
      StuckStep(p, Run(p, s, init).value, steps[|steps| - 1]);
    }
  }

  ghost predicate Lands(p: Envelope, s: World, steps: seq<Step>) {
    Run(p, s, steps).Some? && Included(Run(p, s, steps).value) > Included(s)
  }

  /** Closed or not, with the signatures there are and the signers the account has, an
      envelope can still land exactly while the account is before its sequence number, the
      network before its time bound, and those signatures reach the threshold. */
  lemma CanStillLandIff(p: Envelope, s: World)
    requires Inv(p, s)
    ensures (exists steps :: Quiet(steps) && Lands(p, s, steps)) <==>
            !Dead(p, s) && Allows(p, s.signerSets[|s.signerSets| - 1], s.given)
  {
    assert s.signerSets != [];
    if Stuck(p, s) {
      forall steps | Quiet(steps) ensures !Lands(p, s, steps) {
        if Run(p, s, steps).Some? {
          StuckStays(p, s, steps);
        }
      }
    } else {
      OfferedLands(p, s);
    }
    hide Run, Inv, Allows;
  }

  lemma OfferedLands(p: Envelope, s: World)
    requires Inv(p, s) && !Dead(p, s) && Allows(p, s.signerSets[|s.signerSets| - 1], s.given)
    ensures Lands(p, s, [Offer(s.given), Include(|s.sent|, true)]) && Quiet([Offer(s.given), Include(|s.sent|, true)])
  {
    var a, b := Offer(s.given), Include(|s.sent|, true);
    hide Allows, Sound;
    var t := s.(sent := s.sent + [Submission(s.given, None)]);
    assert Apply(p, s, a) == Some(t);
    assert t.sent[|s.sent|].rows == s.given;
    assert Apply(p, t, b).Some?;
    Two(p, s, a, b);
  }

  // ----- putting runs together -----

  lemma One(p: Envelope, s: World, a: Step)
    ensures Run(p, s, [a]) == Apply(p, s, a)
  {
    hide Apply;
    assert [a][..0] == [];
    assert Run(p, s, []) == Some(s);
  }

  lemma Snoc(p: Envelope, s: World, steps: seq<Step>, a: Step)
    requires Run(p, s, steps).Some?
    ensures Run(p, s, steps + [a]) == Apply(p, Run(p, s, steps).value, a)
  {
    hide Apply;
    assert (steps + [a])[..|steps|] == steps;
  }

  lemma Two(p: Envelope, s: World, a: Step, b: Step)
    requires Apply(p, s, a).Some?
    ensures Run(p, s, [a, b]) == Apply(p, Apply(p, s, a).value, b)
  {
    hide Apply, Run;
    One(p, s, a);
    Snoc(p, s, [a], b);
    assert [a] + [b] == [a, b];
  }

  // ----- weight at submission -----

  predicate Started(x: Progress, start: nat) {
    match x
    case Loaded(k) => k == start
    case SawSigners(k, _) => k == start
    case Weighed(k, _, _) => k == start
    case Guarded(k, _, _) => k == start
    case Assembled(k, _, _, _) => k == start
    case Sent(k, _, _, _, _) => k == start
    case _ => true
  }

  lemma StartStep(p: Envelope, s: World, step: Step, e: nat, start: nat)
    requires e in s.executors && Started(s.executors[e], start) && Apply(p, s, step).Some?
    ensures var t := Apply(p, s, step).value; e in t.executors && Started(t.executors[e], start)
  {
    hide Enough, IsView, Authorised;
  }

  lemma {:induction false} StartStays(p: Envelope, s: World, steps: seq<Step>, e: nat, start: nat)
    requires e in s.executors && Started(s.executors[e], start) && Run(p, s, steps).Some?
    ensures var t := Run(p, s, steps).value; e in t.executors && Started(t.executors[e], start)
  {
    hide Apply, Started;
    if steps != [] {
      var init := steps[..|steps| - 1];
      StartStays(p, s, init, e, start);
      StartStep(p, Run(p, s, init).value, steps[|steps| - 1], e, start);
    }
  }

  lemma EnoughWithMore(p: Envelope, rows: seq<Row>, more: seq<Row>, current: SignerSet)
    requires rows <= more && Enough(p.crypto, p.hash, rows, current, p.treasury)
    ensures Enough(p.crypto, p.hash, more, current, p.treasury)
  {
    MoreRows(p.crypto, p.hash, rows, more, Summary(current, p.treasury));
  }

  /** What an executor with an assembled envelope has, in any state of a run. */
  lemma AssembledHasEnough(p: Envelope, t: World, e: nat)
    requires Inv(p, t) && e in t.executors && t.executors[e].Assembled?
    ensures var x := t.executors[e];
            && x.attached <= |t.rows| && x.seen < |t.signerSets| && x.start <= x.seen
            && Enough(p.crypto, p.hash, t.rows[..x.attached], t.signerSets[x.seen], p.treasury)
  {
    var x := t.executors[e];
    assert Sound(p, t, x);
    hide Enough, Inv;
    assert t.rows[..x.rows] <= t.rows[..x.attached];
    EnoughWithMore(p, t.rows[..x.rows], t.rows[..x.attached], t.signerSets[x.seen]);
  }

  lemma LoadStarts(p: Envelope, s: World, e: nat)
    requires Inv(p, s) && Apply(p, s, Load(e)).Some?
    ensures var t := Apply(p, s, Load(e)).value;
            s.signerSets != [] && Inv(p, t) && e in t.executors && Started(t.executors[e], |s.signerSets| - 1)
  {
    OwnKeeps(p, s, Load(e));
    hide Sound;
  }

  /**
   In every run, an executor that is about to send holds signatures that some signer set the
   account has had, since that executor loaded the proposal, finds enough: distinct signers
   with checked signatures reach its medium threshold, above zero.
   */
  lemma WeightAtSubmission(p: Envelope, start: World, before: seq<Step>, loaded: World, e: nat, after: seq<Step>, t: World)
    requires Opened(p, start) && Run(p, start, before) == Some(loaded)
    requires Apply(p, loaded, Load(e)).Some? && Run(p, Apply(p, loaded, Load(e)).value, after) == Some(t)
    requires e in t.executors && t.executors[e].Assembled?
    ensures var x := t.executors[e];
            && x.attached <= |t.rows| && |loaded.signerSets| - 1 <= x.seen < |t.signerSets|
            && Enough(p.crypto, p.hash, t.rows[..x.attached], t.signerSets[x.seen], p.treasury)
  {
    hide Run, Enough, Apply, Inv, Opened, Sound;
    OpenedIsSound(p, start);
    RunKeeps(p, start, before);
    var s := Apply(p, loaded, Load(e)).value;
    LoadStarts(p, loaded, e);
    RunKeeps(p, s, after);
    StartStays(p, s, after, e, |loaded.signerSets| - 1);
    AssembledHasEnough(p, t, e);
  }

  predicate Saw(x: Progress, seen: nat) {
    match x
    case Loaded(_) => false
    case SawSigners(_, k) => k == seen
    case Weighed(_, k, _) => k == seen
    case Guarded(_, k, _) => k == seen
    case Assembled(_, k, _, _) => k == seen
    case Sent(_, k, _, _, _) => k == seen
    case _ => true
  }

  predicate SignersKept(steps: seq<Step>) {
    forall i :: 0 <= i < |steps| ==> !steps[i].ChangeSigners?
  }

  lemma SawStep(p: Envelope, s: World, step: Step, e: nat, seen: nat)
    requires e in s.executors && Saw(s.executors[e], seen) && Apply(p, s, step).Some?
    ensures var t := Apply(p, s, step).value;
            && e in t.executors && Saw(t.executors[e], seen)
            && (!step.ChangeSigners? ==> t.signerSets == s.signerSets)
  {
    hide Enough, IsView, Authorised;
  }

  lemma {:induction false} SawStays(p: Envelope, s: World, steps: seq<Step>, e: nat, seen: nat)
    requires e in s.executors && Saw(s.executors[e], seen) && SignersKept(steps) && Run(p, s, steps).Some?
    ensures var t := Run(p, s, steps).value;
            e in t.executors && Saw(t.executors[e], seen) && t.signerSets == s.signerSets
  {
    hide Apply, Saw;
    if steps != [] {
      var init := steps[..|steps| - 1];
      SawStays(p, s, init, e, seen);
      SawStep(p, Run(p, s, init).value, steps[|steps| - 1], e, seen);
    }
  }

  lemma ReadSignersSees(p: Envelope, s: World, e: nat)
    requires Inv(p, s) && Apply(p, s, ReadSigners(e)).Some?
    ensures var t := Apply(p, s, ReadSigners(e)).value;
            && Inv(p, t) && t.signerSets == s.signerSets && s.signerSets != []
            && e in t.executors && Saw(t.executors[e], |s.signerSets| - 1)
  {
    OwnKeeps(p, s, ReadSigners(e));
    hide Sound;
  }

  /** And if nobody has changed the account's signers since the executor read them, the
      signatures are enough for the account as it is when the envelope is sent. */
  lemma CurrentWeightAtSubmission(p: Envelope, start: World, before: seq<Step>, read: World, e: nat, after: seq<Step>, t: World)
    requires Opened(p, start) && Run(p, start, before) == Some(read)
    requires Apply(p, read, ReadSigners(e)).Some? && Run(p, Apply(p, read, ReadSigners(e)).value, after) == Some(t)
    requires SignersKept(after) && e in t.executors && t.executors[e].Assembled?
    ensures t.executors[e].attached <= |t.rows| && t.signerSets != []
    ensures Enough(p.crypto, p.hash, t.rows[..t.executors[e].attached], t.signerSets[|t.signerSets| - 1], p.treasury)
  {
    hide *;
    OpenedIsSound(p, start);
    RunKeeps(p, start, before);
    var s := Apply(p, read, ReadSigners(e)).value;
    ReadSignersSees(p, read, e);
    RunKeeps(p, s, after);
    SawStays(p, s, after, e, |read.signerSets| - 1);
    AssembledHasEnough(p, t, e);
    AssembledSaw(t.executors[e], |read.signerSets| - 1);
  }

  lemma AssembledSaw(x: Progress, seen: nat)
    requires x.Assembled? && Saw(x, seen)
    ensures x.seen == seen
  {
  }
}
