/**
 What a run of a proposal has behind it: of every submission, who made it and after reading
 what; and of every closing, what closed it.
 */
module ProposalHistory {
  import opened Common
  import opened Multisig
  import opened Signatures
  import opened Proposals
  import opened ProposalTheorems

  // ----- looking back -----

  /** The state just before a step of a run. */
  ghost predicate Before(p: Envelope, start: World, steps: seq<Step>, j: nat, step: Step, s: World) {
    j < |steps| && steps[j] == step && Run(p, start, steps[..j]) == Some(s)
  }

  lemma BeforeLast(p: Envelope, start: World, steps: seq<Step>)
    requires steps != [] && Run(p, start, steps).Some?
    ensures Run(p, start, steps[..|steps| - 1]).Some?
    ensures var s := Run(p, start, steps[..|steps| - 1]).value;
            && Apply(p, s, steps[|steps| - 1]) == Run(p, start, steps)
            && Before(p, start, steps, |steps| - 1, steps[|steps| - 1], s)
  {
    hide Apply;
  }

  lemma BeforeEarlier(p: Envelope, start: World, steps: seq<Step>, m: nat, j: nat, step: Step, s: World)
    requires m <= |steps| && Before(p, start, steps[..m], j, step, s)
    ensures Before(p, start, steps, j, step, s)
  {
    hide Run;
    assert steps[..m][..j] == steps[..j];
  }

  // ----- who sends -----

  /** Still at work on it. */
  predicate AtWork(x: Progress) {
    x.Loaded? || x.SawSigners? || x.Weighed? || x.Guarded? || x.Assembled?
  }

  predicate PastGuard(x: Progress) {
    x.Guarded? || x.Assembled?
  }

  lemma WorkStep(p: Envelope, s: World, step: Step, e: nat)
    requires Apply(p, s, step).Some?
    ensures var t := Apply(p, s, step).value;
            e in t.executors && AtWork(t.executors[e]) ==>
              || (step == Load(e) && s.status == Open && s.signerSets != []
                  && t.executors[e] == Loaded(|s.signerSets| - 1))
              || (e in s.executors && AtWork(s.executors[e]))
  {
    hide IsView, Authorised;
  }

  /** Whoever is at work on a proposal loaded it while it was open. */
  lemma {:induction false} WorkerLoadedOpen(p: Envelope, start: World, steps: seq<Step>, t: World, e: nat)
      returns (load: nat, s: World)
    requires Opened(p, start) && Run(p, start, steps) == Some(t)
    requires e in t.executors && AtWork(t.executors[e])
    ensures Before(p, start, steps, load, Load(e), s) && s.status == Open
  {
    hide Apply, AtWork, Before;
    assert start.executors == map[];
    BeforeLast(p, start, steps);
    var m := |steps| - 1;
    var u := Run(p, start, steps[..m]).value;
    WorkStep(p, u, steps[m], e);
    if steps[m] == Load(e) && u.status == Open {
      load, s := m, u;
    } else {
      load, s := WorkerLoadedOpen(p, start, steps[..m], u, e);
      BeforeEarlier(p, start, steps, m, load, Load(e), s);
    }
  }

  lemma GuardStep(p: Envelope, s: World, step: Step, e: nat)
    requires Apply(p, s, step).Some?
    ensures var t := Apply(p, s, step).value;
            e in t.executors && PastGuard(t.executors[e]) ==>
              || (step == ReadSequence(e) && s.sequence < p.sourceSeq && e in s.executors && AtWork(s.executors[e]))
              || (e in s.executors && PastGuard(s.executors[e]))
  {
    hide IsView, Authorised;
  }

  /** Whoever is past the guard read a sequence number below the envelope's. */
  lemma {:induction false} GuardedBefore(p: Envelope, start: World, steps: seq<Step>, t: World, e: nat)
      returns (guard: nat, s: World)
    requires Opened(p, start) && Run(p, start, steps) == Some(t)
    requires e in t.executors && PastGuard(t.executors[e])
    ensures Before(p, start, steps, guard, ReadSequence(e), s) && s.sequence < p.sourceSeq
    ensures e in s.executors && AtWork(s.executors[e])
  {
    hide Apply, AtWork, PastGuard, Before;
    assert start.executors == map[];
    BeforeLast(p, start, steps);
    var m := |steps| - 1;
    var u := Run(p, start, steps[..m]).value;
    GuardStep(p, u, steps[m], e);
    if steps[m] == ReadSequence(e) && u.sequence < p.sourceSeq && e in u.executors && AtWork(u.executors[e]) {
      guard, s := m, u;
    } else {
      guard, s := GuardedBefore(p, start, steps[..m], u, e);
      BeforeEarlier(p, start, steps, m, guard, ReadSequence(e), s);
    }
  }

  lemma SentStep(p: Envelope, s: World, step: Step, i: nat, e: nat)
    requires Apply(p, s, step).Some?
    ensures var t := Apply(p, s, step).value;
            i < |t.sent| && t.sent[i].sender == Some(e) ==>
              || (&& step == Send(e) && e in s.executors && s.executors[e].Assembled?
                  && s.executors[e].attached <= |s.rows| && t.sent[i].rows == s.rows[..s.executors[e].attached])
              || (i < |s.sent| && s.sent[i] == t.sent[i])
  {
    hide IsView, Authorised;
  }

  lemma {:induction false} SentBySending(p: Envelope, start: World, steps: seq<Step>, t: World, i: nat, e: nat)
      returns (send: nat, s: World)
    requires Opened(p, start) && Run(p, start, steps) == Some(t) && i < |t.sent| && t.sent[i].sender == Some(e)
    ensures Before(p, start, steps, send, Send(e), s)
    ensures e in s.executors && s.executors[e].Assembled? && s.executors[e].attached <= |s.rows|
    ensures t.sent[i].rows == s.rows[..s.executors[e].attached]
  {
    hide Apply, Before;
    assert start.sent == [];
    BeforeLast(p, start, steps);
    var m := |steps| - 1;
    var u := Run(p, start, steps[..m]).value;
    SentStep(p, u, steps[m], i, e);
    if i < |u.sent| && u.sent[i] == t.sent[i] {
      send, s := SentBySending(p, start, steps[..m], u, i, e);
      BeforeEarlier(p, start, steps, m, send, Send(e), s);
    } else {
      send, s := m, u;
    }
  }

  /**
   Who sends, in every run: whatever an executor submitted, it submitted after loading the
   proposal while it was open, and after then reading a sequence number the envelope was
   still ahead of; and with it went stored signatures enough for some signer set the
   account has had.
   */
  lemma SubmittersLoadedOpen(p: Envelope, start: World, steps: seq<Step>, t: World, i: nat, e: nat)
      returns (load: nat, guard: nat, send: nat, signers: nat, loaded: World, guarded: World, sent: World)
    requires Opened(p, start) && Run(p, start, steps) == Some(t) && i < |t.sent| && t.sent[i].sender == Some(e)
    ensures load < guard < send
    ensures Before(p, start, steps, load, Load(e), loaded) && loaded.status == Open
    ensures Before(p, start, steps, guard, ReadSequence(e), guarded) && guarded.sequence < p.sourceSeq
    ensures Before(p, start, steps, send, Send(e), sent) && t.sent[i].rows <= sent.rows && signers < |sent.signerSets|
    ensures Enough(p.crypto, p.hash, t.sent[i].rows, sent.signerSets[signers], p.treasury)
  {
    hide Run, Opened, Enough, Inv, PastGuard, AtWork;
    send, sent := SentBySending(p, start, steps, t, i, e);
    OpenedIsSound(p, start);
    RunKeeps(p, start, steps[..send]);
    AssembledHasEnough(p, sent, e);
    signers := sent.executors[e].seen;
    AssembledIsPast(sent.executors[e]);
    guard, guarded := GuardedBefore(p, start, steps[..send], sent, e);
    assert steps[..send][..guard] == steps[..guard];
    load, loaded := WorkerLoadedOpen(p, start, steps[..guard], guarded, e);
    BeforeEarlier(p, start, steps, send, guard, ReadSequence(e), guarded);
    BeforeEarlier(p, start, steps, guard, load, Load(e), loaded);
  }

  lemma AssembledIsPast(x: Progress)
    requires x.Assembled?
    ensures PastGuard(x)
  {
  }

  lemma {:induction false} RunOn(p: Envelope, start: World, before: seq<Step>, after: seq<Step>)
    requires Run(p, start, before).Some?
    ensures Run(p, start, before + after) == Run(p, Run(p, start, before).value, after)
    decreases |after|
  {
    hide Apply;
    if after == [] {
      assert before + after == before;
    } else {
      var init := after[..|after| - 1];
      RunOn(p, start, before, init);
      assert (before + after)[..|before + after| - 1] == before + init;
    }
  }

  lemma {:induction false} ExecutorsStay(p: Envelope, s: World, steps: seq<Step>, e: nat)
    requires e in s.executors && Run(p, s, steps).Some?
    ensures e in Run(p, s, steps).value.executors
  {
    hide Apply;
    if steps != [] {
      ExecutorsStay(p, s, steps[..|steps| - 1], e);
      ExecutorStays(p, Run(p, s, steps[..|steps| - 1]).value, steps[|steps| - 1], e);
    }
  }

  lemma ExecutorStays(p: Envelope, s: World, step: Step, e: nat)
    requires e in s.executors && Apply(p, s, step).Some?
    ensures e in Apply(p, s, step).value.executors
  {
    hide IsView, Authorised;
  }

  lemma LoadAdds(p: Envelope, s: World, e: nat)
    requires Apply(p, s, Load(e)).Some?
    ensures e in Apply(p, s, Load(e)).value.executors
  {
  }

  /** So whoever first comes to a proposal after it was closed submits nothing. */
  lemma ClosedIsNotSent(p: Envelope, start: World, before: seq<Step>, s: World, after: seq<Step>, t: World, i: nat, e: nat)
    requires Opened(p, start) && Run(p, start, before) == Some(s) && Run(p, s, after) == Some(t)
    requires s.status != Open && e !in s.executors && i < |t.sent|
    ensures t.sent[i].sender != Some(e)
  {
    hide Opened, Apply, Enough, Run, Before;
    if t.sent[i].sender == Some(e) {
      var all := before + after;
      RunOn(p, start, before, after);
      var load, guard, send, signers, loaded, guarded, sent := SubmittersLoadedOpen(p, start, all, t, i, e);
      LoadedSomewhere(p, start, before, s, after, load, loaded, e);
    }
  }

  lemma LoadedSomewhere(
      p: Envelope, start: World, before: seq<Step>, s: World, after: seq<Step>, load: nat, loaded: World, e: nat)
    requires Run(p, start, before) == Some(s) && Run(p, s, after).Some?
    requires Before(p, start, before + after, load, Load(e), loaded) && loaded.status == Open
    ensures e in s.executors || s.status == Open
  {
    hide Apply;
    if load < |before| {
      var upto := before[..load + 1];
      assert (before + after)[..load] == before[..load] == upto[..load];
      assert upto[load] == Load(e);
      assert before == upto + before[load + 1..];
      if Run(p, start, upto).None? {
        RunStuck(p, start, upto, before[load + 1..]);
      }
      RunOn(p, start, upto, before[load + 1..]);
      LoadAdds(p, loaded, e);
      ExecutorsStay(p, Run(p, start, upto).value, before[load + 1..], e);
    } else {
      var part := after[..load - |before|];
      assert (before + after)[..load] == before + part;
      RunOn(p, start, before, part);
      if s.status != Open {
        ClosedStays(p, s, part);
      }
    }
  }

  lemma {:induction false} RunStuck(p: Envelope, start: World, before: seq<Step>, after: seq<Step>)
    requires Run(p, start, before).None?
    ensures Run(p, start, before + after).None?
    decreases |after|
  {
    hide Apply;
    if after == [] {
      assert before + after == before;
    } else {
      RunStuck(p, start, before, after[..|after| - 1]);
      assert (before + after)[..|before + after| - 1] == before + after[..|after| - 1];
    }
  }

  // ----- what closes it -----

  /** What a reply says of a proposal; a reply that says nothing leaves it open. */
  predicate Means(reply: Reply, status: Status) {
    match status
    case Executed => reply == Accept || reply == Found
    case Failed =>
      || reply == IncludedAndFailed
      || reply == Reject("tx_failed") || reply == Reject("tx_fee_bump_inner_failed") || reply == Reject("tx_bad_seq")
    case Expired => reply == Reject("tx_too_late")
    case _ => false
  }

  /** A step after which a proposal is to be closed, and as what. */
  predicate Decides(p: Envelope, s: World, step: Step, status: Status) {
    || (step == Cancel && status == Cancelled)
    || (step == Expire && p.maxTime <= s.storeNow && status == Expired)
    || (step.Hear? && Means(step.reply, status))
    || (step.ReadSequence? && s.sequence >= p.sourceSeq && status == Failed)
  }

  lemma CodesDiffer()
    ensures "tx_too_late" != "tx_failed" && "tx_too_late" != "tx_bad_seq" && "tx_too_late" != "tx_fee_bump_inner_failed"
    ensures "tx_failed" != "tx_bad_seq" && "tx_failed" != "tx_fee_bump_inner_failed"
    ensures "tx_bad_seq" != "tx_fee_bump_inner_failed"
  {
    assert |"tx_too_late"| == 11 && |"tx_failed"| == 9 && |"tx_bad_seq"| == 10 && |"tx_fee_bump_inner_failed"| == 24;
  }

  /** An executor makes of a reply what it means. */
  lemma MeaningIsTaken(reply: Reply, sub: nat)
    ensures forall status :: Means(reply, status) <==> After(reply, sub).ToResolve? && After(reply, sub).status == status
    ensures !After(reply, sub).ToResolve? ==> After(reply, sub) == Done
    ensures After(reply, sub).ToResolve? ==> After(reply, sub).status != Open && After(reply, sub).status != Cancelled
  {
    CodesDiffer();
  }

  lemma ResolvingStep(p: Envelope, s: World, step: Step, e: nat)
    requires Apply(p, s, step).Some?
    ensures var t := Apply(p, s, step).value;
            e in t.executors && t.executors[e].ToResolve? ==>
              || Decides(p, s, step, t.executors[e].status)
              || (e in s.executors && s.executors[e] == t.executors[e])
  {
    hide IsView, Authorised, Means, After;
    if step.Hear? && e in s.executors && s.executors[e].Sent? {
      MeaningIsTaken(step.reply, s.executors[e].sub);
    }
  }

  lemma {:induction false} ResolverDecided(p: Envelope, start: World, steps: seq<Step>, t: World, e: nat)
      returns (j: nat, step: Step, s: World)
    requires Opened(p, start) && Run(p, start, steps) == Some(t) && e in t.executors && t.executors[e].ToResolve?
    ensures Before(p, start, steps, j, step, s) && Decides(p, s, step, t.executors[e].status)
  {
    hide Apply, Before, Decides;
    assert start.executors == map[];
    BeforeLast(p, start, steps);
    var m := |steps| - 1;
    var u := Run(p, start, steps[..m]).value;
    ResolvingStep(p, u, steps[m], e);
    if Decides(p, u, steps[m], t.executors[e].status) {
      j, step, s := m, steps[m], u;
    } else {
      j, step, s := ResolverDecided(p, start, steps[..m], u, e);
      BeforeEarlier(p, start, steps, m, j, step, s);
    }
  }

  lemma ClosingStep(p: Envelope, s: World, step: Step)
    requires Apply(p, s, step).Some?
    ensures var t := Apply(p, s, step).value;
            || t.status == s.status
            || Decides(p, s, step, t.status)
            || (step.Resolve? && step.e in s.executors && s.executors[step.e].ToResolve?
                && s.executors[step.e].status == t.status)
  {
    hide IsView, Authorised;
  }

  /**
   Nothing else closes a proposal, in any run: cancelled, it was cancelled; expired, its window
   had passed or the network had said that it came too late; executed, an executor had heard
   that it was accepted or found; failed, one had heard that it is spent or trapped, or had
   read a sequence number that rules it out.
   */
  lemma {:induction false} ClosedBecause(p: Envelope, start: World, steps: seq<Step>, t: World)
      returns (j: nat, step: Step, s: World)
    requires Opened(p, start) && Run(p, start, steps) == Some(t) && t.status != Open
    ensures Before(p, start, steps, j, step, s) && Decides(p, s, step, t.status)
  {
    hide Apply, Before, Decides;
    assert start.status == Open;
    BeforeLast(p, start, steps);
    var m := |steps| - 1;
    var u := Run(p, start, steps[..m]).value;
    ClosingStep(p, u, steps[m]);
    if Decides(p, u, steps[m], t.status) {
      j, step, s := m, steps[m], u;
    } else {
      if u.status == t.status {
        j, step, s := ClosedBecause(p, start, steps[..m], u);
      } else {
        j, step, s := ResolverDecided(p, start, steps[..m], u, steps[m].e);
      }
      BeforeEarlier(p, start, steps, m, j, step, s);
    }
  }

  // ----- and what each of them does -----

  /** The executor itself neither gives up nor gets to its record. */
  predicate LeavesAlone(steps: seq<Step>, e: nat) {
    forall i :: 0 <= i < |steps| ==> steps[i] != Stop(e) && steps[i] != Resolve(e)
  }

  predicate Settled(x: Progress) {
    x.ToResolve? || x.Done?
  }

  lemma SettledStep(p: Envelope, s: World, step: Step, e: nat)
    requires e in s.executors && Settled(s.executors[e]) && Apply(p, s, step).Some?
    requires step != Stop(e) && step != Resolve(e)
    ensures var t := Apply(p, s, step).value; e in t.executors && t.executors[e] == s.executors[e]
  {
    hide IsView, Authorised;
  }

  lemma {:induction false} SettledStays(p: Envelope, s: World, steps: seq<Step>, e: nat)
    requires e in s.executors && Settled(s.executors[e]) && LeavesAlone(steps, e) && Run(p, s, steps).Some?
    ensures var t := Run(p, s, steps).value; e in t.executors && t.executors[e] == s.executors[e]
  {
    hide Apply, Settled;
    if steps != [] {
      var init := steps[..|steps| - 1];
      SettledStays(p, s, init, e);
      SettledStep(p, Run(p, s, init).value, steps[|steps| - 1], e);
    }
  }

  /** Recording closes an open proposal as what was decided, and leaves a closed one as it is. */
  lemma ResolveRecords(p: Envelope, s: World, e: nat)
    requires e in s.executors
    ensures Apply(p, s, Resolve(e)).Some? <==> s.executors[e].ToResolve?
    ensures s.executors[e].ToResolve? && s.executors[e].status != Open ==>
              Apply(p, s, Resolve(e)).value.status == (if s.status == Open then s.executors[e].status else s.status)
  {
  }

  /**
   A reply, heard, and whatever happens before it is recorded: if the proposal is still open
   then, it is closed as exactly what the reply means; and a reply that means nothing is
   never recorded, so a lost answer or a refusal that may pass leaves it open.
   */
  lemma ReplyDecides(p: Envelope, s: World, e: nat, reply: Reply, between: seq<Step>, t: World)
    requires Apply(p, s, Hear(e, reply)).Some? && LeavesAlone(between, e)
    requires Run(p, Apply(p, s, Hear(e, reply)).value, between) == Some(t)
    ensures Apply(p, s, Hear(e, reply)).value.status == s.status
    ensures forall status :: Means(reply, status) ==>
              && Apply(p, t, Resolve(e)).Some?
              && Apply(p, t, Resolve(e)).value.status == (if t.status == Open then status else t.status)
    ensures (forall status :: !Means(reply, status)) ==> Apply(p, t, Resolve(e)).None?
  {
    hide Run, IsView, Authorised, Means, After;
    MeaningIsTaken(reply, s.executors[e].sub);
    var u := Apply(p, s, Hear(e, reply)).value;
    assert u.executors[e] == After(reply, s.executors[e].sub);
    SettledStays(p, u, between, e);
    ResolveRecords(p, t, e);
    hide Apply;
    assert After(reply, s.executors[e].sub).ToResolve? ==> Means(reply, t.executors[e].status);
  }

  /** The guard, likewise: an account past the envelope's sequence number fails the proposal. */
  lemma GuardDecides(p: Envelope, s: World, e: nat, between: seq<Step>, t: World)
    requires Apply(p, s, ReadSequence(e)).Some? && LeavesAlone(between, e) && s.sequence >= p.sourceSeq
    requires Run(p, Apply(p, s, ReadSequence(e)).value, between) == Some(t)
    ensures Apply(p, s, ReadSequence(e)).value.status == s.status
    ensures Apply(p, t, Resolve(e)).Some?
    ensures Apply(p, t, Resolve(e)).value.status == (if t.status == Open then Failed else t.status)
  {
    hide Run, IsView, Authorised;
    SettledStays(p, Apply(p, s, ReadSequence(e)).value, between, e);
    ResolveRecords(p, t, e);
  }

  /** An open proposal can be cancelled at any time and expires when its window has passed,
      not before; a closed one is left as it is; and neither touches anything else. */
  lemma OutsideDecides(p: Envelope, s: World)
    ensures Apply(p, s, Cancel).Some?
    ensures Apply(p, s, Cancel).value.status == (if s.status == Open then Cancelled else s.status)
    ensures Apply(p, s, Expire).Some? <==> p.maxTime <= s.storeNow
    ensures p.maxTime <= s.storeNow ==>
              Apply(p, s, Expire).value.status == (if s.status == Open then Expired else s.status)
    ensures forall step :: step in {Cancel, Expire} && Apply(p, s, step).Some? ==>
              var t := Apply(p, s, step).value;
              t.rows == s.rows && t.sent == s.sent && t.executors == s.executors && Included(t) == Included(s)
  {
    hide IsView, Authorised;
  }

  /** What may happen around a proposal at any time: clocks go on, signers change, the sequence
      number rises, anybody signs, and anybody submits the envelope with signatures there are. */
  lemma TheWorldMoves(p: Envelope, s: World)
    ensures forall store, network ::
              Apply(p, s, Tick(store, network)).Some? <==> s.storeNow <= store && s.networkNow <= network
    ensures forall current :: Apply(p, s, ChangeSigners(current)).Some?
    ensures forall to :: Apply(p, s, MoveSequence(to)).Some? <==> s.sequence <= to
    ensures forall row :: Apply(p, s, Give(row)).Some?
    ensures forall rows :: Apply(p, s, Offer(rows)).Some? <==> Among(rows, s.given)
    ensures forall e :: Apply(p, s, Stop(e)).Some? <==> e in s.executors
  {
    hide IsView, Authorised;
  }

  /** The network includes a submission, whichever way it ends, exactly while the envelope is next
      in sequence and in time and the submission's signatures authorise it; and once. */
  lemma InclusionIff(p: Envelope, s: World, sub: nat, success: bool)
    ensures Apply(p, s, Include(sub, success)).Some? <==>
            && s.sequence == p.sourceSeq - 1 && s.networkNow <= p.maxTime
            && sub < |s.sent| && s.signerSets != []
            && Authorised(p.crypto, p.hash, s.sent[sub].rows, s.signerSets[|s.signerSets| - 1], p.treasury)
    ensures Apply(p, s, Include(sub, success)).Some? ==>
              var t := Apply(p, s, Include(sub, success)).value;
              && t.succeeded == s.succeeded + (if success then 1 else 0)
              && t.failed == s.failed + (if success then 0 else 1)
              && t.sequence == p.sourceSeq
  {
    hide IsView, Authorised;
  }

  // ----- what is signed -----

  predicate SignedBy(rows: seq<Row>, signer: string) {
    exists i :: 0 <= i < |rows| && rows[i].signer == signer
  }

  predicate OneRowEach(rows: seq<Row>) {
    forall i, j :: 0 <= i < j < |rows| ==> rows[i].signer != rows[j].signer
  }

  /** A signature is taken exactly while the proposal is open and its window has not passed,
      and kept unless that signer has signed. */
  lemma SigningAdds(p: Envelope, s: World, row: Row)
    ensures Apply(p, s, AddSignature(row)).Some? <==> s.status == Open && s.storeNow < p.maxTime && row in s.given
    ensures Apply(p, s, AddSignature(row)).Some? ==>
              Apply(p, s, AddSignature(row)).value
              == if SignedBy(s.rows, row.signer) then s else s.(rows := s.rows + [row])
  {
    hide IsView, Authorised;
  }

  lemma RowsStep(p: Envelope, s: World, step: Step)
    requires Apply(p, s, step).Some? && OneRowEach(s.rows)
    ensures OneRowEach(Apply(p, s, step).value.rows)
  {
    hide IsView, Authorised;
  }

  /** In every run a signer is stored once. */
  lemma {:induction false} EachSignsOnce(p: Envelope, start: World, steps: seq<Step>)
    requires Opened(p, start) && Run(p, start, steps).Some?
    ensures OneRowEach(Run(p, start, steps).value.rows)
  {
    hide Apply, OneRowEach;
    if steps != [] {
      BeforeLast(p, start, steps);
      EachSignsOnce(p, start, steps[..|steps| - 1]);
      RowsStep(p, Run(p, start, steps[..|steps| - 1]).value, steps[|steps| - 1]);
    } else {
      NoRows(start.rows);
    }
  }

  lemma NoRows(rows: seq<Row>)
    ensures rows == [] ==> OneRowEach(rows)
  {
  }
}
