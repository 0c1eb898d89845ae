/** Runs that show what is not promised, each from a proposal just opened. */
module ProposalRuns {
  import opened Common
  import opened SetSums
  import opened Multisig
  import opened Signatures
  import opened Proposals
  import opened ProposalTheorems

  ghost predicate Reaches(p: Envelope, start: World, steps: seq<Step>, t: World) {
    Run(p, start, steps) == Some(t)
  }

  lemma Then(p: Envelope, start: World, steps: seq<Step>, s: World, a: Step, t: World)
    requires Reaches(p, start, steps, s) && Apply(p, s, a) == Some(t)
    ensures Reaches(p, start, steps + [a], t)
  {
    Snoc(p, start, steps, a);
  }

  ghost function Current(s: World): SignerSet
    requires s.signerSets != []
  {
    s.signerSets[|s.signerSets| - 1]
  }

  /** An open proposal that has not run out, with enough weight on record now. */
  ghost predicate Signed(p: Envelope, s: World) {
    && s.status == Open && s.signerSets != [] && !Dead(p, s) && s.sequence + 1 == p.sourceSeq
    && Enough(p.crypto, p.hash, s.rows, Current(s), p.treasury)
  }

  /** One signature that is enough, given and stored. */
  lemma OneSigns(p: Envelope, start: World, row: Row) returns (steps: seq<Step>, t: World)
    requires Opened(p, start) && !Dead(p, start) && start.storeNow < p.maxTime
    requires Enough(p.crypto, p.hash, [row], Current(start), p.treasury)
    ensures Reaches(p, start, steps, t) && Signed(p, t) && t == start.(given := [row], rows := [row])
  {
    hide Enough, Own, Run, Authorised;
    var s := start.(given := [row]);
    t := start.(given := [row], rows := [row]);
    assert start.given + [row] == [row] && NewRow([], row) == [row];
    assert Apply(p, start, Give(row)) == Some(s);
    assert Apply(p, s, AddSignature(row)) == Some(t);
    Two(p, start, Give(row), AddSignature(row));
    steps := [Give(row), AddSignature(row)];
  }

  /** Such a signature: the account's own key, where that alone reaches the threshold. */
  lemma OwnKeyIsEnough(p: Envelope, current: SignerSet, signature: string)
    requires 0 < current.medium <= current.master && p.crypto.verify(p.treasury, p.hash, signature)
    ensures Enough(p.crypto, p.hash, [Row(p.treasury, signature)], current, p.treasury)
  {
    var rows, signers := [Row(p.treasury, signature)], Summary(current, p.treasury);
    assert Counts(p.crypto, p.hash, Decorate(p.crypto, rows[0]), p.treasury);
    assert Backed(p.crypto, p.hash, rows, p.treasury);
    var share := Share(p.crypto, p.hash, rows, signers);
    SumRemove(signers.Keys, share, p.treasury);
    var nothing := (a: string) => 0;
    SumZero(signers.Keys - {p.treasury}, nothing);
    SumAtMost(signers.Keys - {p.treasury}, nothing, share);
  }

  /** An executor loads it, reads the signers and the rows, and finds it ready. */
  lemma Weighs(p: Envelope, start: World, steps: seq<Step>, s: World, e: nat) returns (more: seq<Step>, t: World)
    requires Reaches(p, start, steps, s) && Signed(p, s) && e !in s.executors
    ensures Reaches(p, start, more, t)
    ensures var k := |s.signerSets| - 1; t == Goes(s, e, Weighed(k, k, |s.rows|))
  {
    var k := |s.signerSets| - 1;
    var view := ReadyViewExists(p.crypto, p.hash, s.rows, Current(s), p.treasury);
    hide Enough, IsView, Reaches, Run;
    var a, b := Goes(s, e, Loaded(k)), Goes(s, e, SawSigners(k, k));
    t := Goes(s, e, Weighed(k, k, |s.rows|));
    LoadsAndReads(p, s, e);
    ReadsRows(p, s, e, view);
    hide Apply, Goes, Signed;
    Then(p, start, steps, s, Load(e), a);
    Then(p, start, steps + [Load(e)], a, ReadSigners(e), b);
    Then(p, start, steps + [Load(e)] + [ReadSigners(e)], b, ReadRows(e, view), t);
    more := steps + [Load(e)] + [ReadSigners(e)] + [ReadRows(e, view)];
  }

  lemma LoadsAndReads(p: Envelope, s: World, e: nat)
    requires s.status == Open && s.signerSets != [] && e !in s.executors
    ensures var k := |s.signerSets| - 1;
            && Apply(p, s, Load(e)) == Some(Goes(s, e, Loaded(k)))
            && Apply(p, Goes(s, e, Loaded(k)), ReadSigners(e)) == Some(Goes(s, e, SawSigners(k, k)))
  {
    var k := |s.signerSets| - 1;
    assert Goes(Goes(s, e, Loaded(k)), e, SawSigners(k, k)) == Goes(s, e, SawSigners(k, k));
  }

  lemma ReadsRows(p: Envelope, s: World, e: nat, view: View)
    requires s.signerSets != [] && IsView(p.crypto, p.hash, s.rows, Current(s), p.treasury, view) && Ready(view)
    ensures var k := |s.signerSets| - 1;
            Apply(p, Goes(s, e, SawSigners(k, k)), ReadRows(e, view)) == Some(Goes(s, e, Weighed(k, k, |s.rows|)))
  {
    hide IsView;
    var k := |s.signerSets| - 1;
    assert Goes(Goes(s, e, SawSigners(k, k)), e, Weighed(k, k, |s.rows|)) == Goes(s, e, Weighed(k, k, |s.rows|));
  }

  /** Found ready, before the sequence has moved, it attaches what is stored and sends. */
  lemma Sends(p: Envelope, start: World, steps: seq<Step>, s: World, e: nat) returns (more: seq<Step>, t: World)
    requires Reaches(p, start, steps, s) && e in s.executors && s.executors[e].Weighed? && s.sequence < p.sourceSeq
    ensures Reaches(p, start, more, t)
    ensures var x := s.executors[e];
            t == Goes(s.(sent := s.sent + [Submission(s.rows, Some(e))]), e, Sent(x.start, x.seen, x.rows, |s.rows|, |s.sent|))
  {
    var x := s.executors[e];
    var a, b := Goes(s, e, Guarded(x.start, x.seen, x.rows)), Goes(s, e, Assembled(x.start, x.seen, x.rows, |s.rows|));
    t := Goes(s.(sent := s.sent + [Submission(s.rows, Some(e))]), e, Sent(x.start, x.seen, x.rows, |s.rows|, |s.sent|));
    hide Reaches, Run;
    assert Apply(p, s, ReadSequence(e)) == Some(a);
    assert Goes(a, e, Assembled(x.start, x.seen, x.rows, |s.rows|)) == b;
    assert Apply(p, a, ReadRowsAgain(e)) == Some(b);
    assert s.rows[..|s.rows|] == s.rows;
    assert Goes(b.(sent := t.sent), e, Sent(x.start, x.seen, x.rows, |s.rows|, |s.sent|)) == t;
    assert Apply(p, b, Send(e)) == Some(t);
    Then(p, start, steps, s, ReadSequence(e), a);
    Then(p, start, steps + [ReadSequence(e)], a, ReadRowsAgain(e), b);
    Then(p, start, steps + [ReadSequence(e)] + [ReadRowsAgain(e)], b, Send(e), t);
    more := steps + [ReadSequence(e)] + [ReadRowsAgain(e)] + [Send(e)];
  }

  /** The network includes what was sent with enough weight, if nothing has changed. */
  lemma Includes(p: Envelope, s: World, sub: nat, success: bool)
    requires Signed(p, s) && sub < |s.sent| && s.sent[sub].rows == s.rows
    ensures var landed := s.(sequence := p.sourceSeq, landing := Some(Landing(sub, |s.signerSets| - 1)));
            Apply(p, s, Include(sub, success)) ==
            Some(if success then landed.(succeeded := s.succeeded + 1) else landed.(failed := s.failed + 1))
  {
    assert Allows(p, Current(s), s.sent[sub].rows);
    hide Authorised;
  }

  /**
   And in the ordinary run: signed, loaded, weighed, guarded, sent, included, accepted, heard
   and recorded, it is executed and has succeeded once.
   */
  lemma OpenedMayExecute(p: Envelope, start: World, row: Row) returns (steps: seq<Step>, t: World)
    requires Opened(p, start) && !Dead(p, start) && start.storeNow < p.maxTime
    requires Enough(p.crypto, p.hash, [row], Current(start), p.treasury)
    ensures Reaches(p, start, steps, t)
    ensures t.status == Executed && t.cause == Accepted(0) && t.succeeded == 1 && t.failed == 0
  {
    var s: World;
    steps, s := OneSigns(p, start, row);
    steps, s := Weighs(p, start, steps, s, 0);
    steps, s := Sends(p, start, steps, s, 0);
    assert s.sent[0].rows == s.rows && Signed(p, s);
    Includes(p, s, 0, true);
    hide Enough, Reaches, Run, Authorised, Apply, Signed;
    var a := s.(sequence := p.sourceSeq, landing := Some(Landing(0, |s.signerSets| - 1)), succeeded := 1);
    Then(p, start, steps, s, Include(0, true), a);
    steps, t := HearsAndCloses(p, start, steps + [Include(0, true)], a, 0, Accept, Executed, Accepted(0));
  }

  /**
   Failed and yet landed. The first executor sends and hears nothing; the envelope lands; the
   second finds the sequence moved, and closes the proposal as failed.
   */
  lemma FailedMayHaveLanded(p: Envelope, start: World, row: Row) returns (steps: seq<Step>, t: World)
    requires Opened(p, start) && !Dead(p, start) && start.storeNow < p.maxTime
    requires Enough(p.crypto, p.hash, [row], Current(start), p.treasury)
    ensures Reaches(p, start, steps, t)
    ensures t.status == Failed && t.cause == SequenceMoved(1, true) && t.succeeded == 1
    ensures t.landing.Some? && t.landing.value.sub == 0 && t.sent == [Submission([row], Some(0))]
  {
    var s: World;
    steps, s := OneSigns(p, start, row);
    steps, s := Weighs(p, start, steps, s, 0);
    steps, s := Sends(p, start, steps, s, 0);
    hide Enough, Reaches, Run;
    assert [] + [Submission([row], Some(0))] == [Submission([row], Some(0))];
    t := Goes(s, 0, Done);
    assert Apply(p, s, Hear(0, NoAnswer)) == Some(t);
    Then(p, start, steps, s, Hear(0, NoAnswer), t);
    steps, s := steps + [Hear(0, NoAnswer)], t;
    steps, s := Weighs(p, start, steps, s, 1);
    assert s.rows == [row] && s.sent[0].rows == [row];
    steps, t := LandsUnheard(p, start, steps, s, 1);
  }

  /** From a second executor that has weighed the rows, one submission unheard of. */
  lemma LandsUnheard(p: Envelope, start: World, steps: seq<Step>, s: World, e: nat) returns (more: seq<Step>, t: World)
    requires Reaches(p, start, steps, s) && Signed(p, s) && e in s.executors && s.executors[e].Weighed?
    requires |s.sent| == 1 && s.sent[0].rows == s.rows && s.landing == None && s.succeeded == 0 && s.failed == 0
    ensures Reaches(p, start, more, t)
    ensures t.status == Failed && t.cause == SequenceMoved(1, true) && t.succeeded == 1 && t.sent == s.sent
    ensures t.landing == Some(Landing(0, |s.signerSets| - 1))
  {
    Includes(p, s, 0, true);
    hide Enough, Reaches, Run, Signed, Authorised;
    assert s.status == Open && s.sequence + 1 == p.sourceSeq by { OpenNow(p, s); }
    var a := s.(sequence := p.sourceSeq, landing := Some(Landing(0, |s.signerSets| - 1)), succeeded := 1);
    var b := Goes(a, e, ToResolve(Failed, SequenceMoved(1, true)));
    t := Goes(a.(status := Failed, cause := SequenceMoved(1, true), closings := a.closings + 1), e, Done);
    assert Apply(p, a, ReadSequence(e)) == Some(b);
    assert Goes(Close(b, Failed, SequenceMoved(1, true)), e, Done) == t;
    assert Apply(p, b, Resolve(e)) == Some(t);
    Then(p, start, steps, s, Include(0, true), a);
    Then(p, start, steps + [Include(0, true)], a, ReadSequence(e), b);
    Then(p, start, steps + [Include(0, true)] + [ReadSequence(e)], b, Resolve(e), t);
    more := steps + [Include(0, true)] + [ReadSequence(e)] + [Resolve(e)];
  }

  lemma OpenNow(p: Envelope, s: World)
    requires Signed(p, s)
    ensures s.status == Open && s.sequence + 1 == p.sourceSeq
  {
  }

  /**
   Refused for its sequence number and yet landed: it was itself that moved the sequence, by
   an earlier submission nothing was heard of.
   */
  lemma RefusedMayHaveLanded(p: Envelope, start: World, row: Row) returns (steps: seq<Step>, t: World)
    requires Opened(p, start) && !Dead(p, start) && start.storeNow < p.maxTime
    requires Enough(p.crypto, p.hash, [row], Current(start), p.treasury)
    ensures Reaches(p, start, steps, t)
    ensures t.status == Failed && t.cause == Spent(1, "tx_bad_seq") && t.succeeded == 1
  {
    var s: World;
    steps, s := OneSigns(p, start, row);
    steps, s := Weighs(p, start, steps, s, 0);
    steps, s := Sends(p, start, steps, s, 0);
    steps, s := Weighs(p, start, steps, s, 1);
    steps, s := Sends(p, start, steps, s, 1);
    assert s.sent[0].rows == s.rows && Signed(p, s);
    Includes(p, s, 0, true);
    hide Enough, Reaches, Run, Authorised, Apply, Signed;
    var a := s.(sequence := p.sourceSeq, landing := Some(Landing(0, |s.signerSets| - 1)), succeeded := 1);
    Then(p, start, steps, s, Include(0, true), a);
    BadSequenceIsSpent(1);
    BadSequenceIsTrue(p, a);
    steps, t := HearsAndCloses(p, start, steps + [Include(0, true)], a, 1, Reject("tx_bad_seq"), Failed, Spent(1, "tx_bad_seq"));
  }

  lemma BadSequenceIsSpent(sub: nat)
    ensures After(Reject("tx_bad_seq"), sub) == ToResolve(Failed, Spent(sub, "tx_bad_seq"))
  {
    assert |"tx_bad_seq"| == 10 && |"tx_too_late"| == 11;
  }

  lemma BadSequenceIsTrue(p: Envelope, s: World)
    requires s.sequence >= p.sourceSeq
    ensures True(p, s, Reject("tx_bad_seq"))
  {
    assert |"tx_bad_seq"| == 10 && |"tx_failed"| == 9 && |"tx_fee_bump_inner_failed"| == 24 && |"tx_too_late"| == 11;
  }

  /** A true reply is heard and recorded. */
  lemma HearsAndCloses(p: Envelope, start: World, steps: seq<Step>, s: World, e: nat, reply: Reply, status: Status, cause: Cause)
      returns (more: seq<Step>, t: World)
    requires Reaches(p, start, steps, s) && s.status == Open && e in s.executors && s.executors[e].Sent? && True(p, s, reply)
    requires After(reply, s.executors[e].sub) == ToResolve(status, cause) && status != Open
    ensures Reaches(p, start, more, t)
    ensures t.status == status && t.cause == cause && t.succeeded == s.succeeded && t.failed == s.failed
  {
    hide Reaches, Run, True, After;
    var b := Goes(s, e, ToResolve(status, cause));
    t := Goes(s.(status := status, cause := cause, closings := s.closings + 1), e, Done);
    assert Apply(p, s, Hear(e, reply)) == Some(b);
    assert Goes(Close(b, status, cause), e, Done) == t;
    assert Apply(p, b, Resolve(e)) == Some(t);
    Then(p, start, steps, s, Hear(e, reply), b);
    Then(p, start, steps + [Hear(e, reply)], b, Resolve(e), t);
    more := steps + [Hear(e, reply)] + [Resolve(e)];
  }

  /**
   Executed and yet without effect. The executor's answer is lost, the envelope is included
   and fails, and the lookup that settles the matter finds it on the ledger.
   */
  lemma ExecutedMayHaveFailed(p: Envelope, start: World, row: Row) returns (steps: seq<Step>, t: World)
    requires Opened(p, start) && !Dead(p, start) && start.storeNow < p.maxTime
    requires Enough(p.crypto, p.hash, [row], Current(start), p.treasury)
    ensures Reaches(p, start, steps, t)
    ensures t.status == Executed && t.cause == LookedUp(0) && t.failed == 1 && t.succeeded == 0
  {
    var s: World;
    steps, s := OneSigns(p, start, row);
    steps, s := Weighs(p, start, steps, s, 0);
    steps, s := Sends(p, start, steps, s, 0);
    assert s.sent[0].rows == s.rows && Signed(p, s);
    Includes(p, s, 0, false);
    hide Enough, Reaches, Run, Authorised, Apply, Signed;
    var a := s.(sequence := p.sourceSeq, landing := Some(Landing(0, |s.signerSets| - 1)), failed := 1);
    Then(p, start, steps, s, Include(0, false), a);
    steps, t := HearsAndCloses(p, start, steps + [Include(0, false)], a, 0, Found, Executed, LookedUp(0));
  }

  /**
   Sent without the weight. The account's signers change, to any set for which what is stored
   is not enough, after the executor has read them and before it sends.
   */
  lemma SignersMayChangeBeforeSending(p: Envelope, start: World, row: Row, current: SignerSet)
      returns (steps: seq<Step>, t: World)
    requires Opened(p, start) && !Dead(p, start) && start.storeNow < p.maxTime
    requires Enough(p.crypto, p.hash, [row], Current(start), p.treasury)
    requires !Enough(p.crypto, p.hash, [row], current, p.treasury)
    ensures Reaches(p, start, steps, t) && t.sent == [Submission([row], Some(0))] && t.signerSets != []
    ensures !Enough(p.crypto, p.hash, t.sent[0].rows, Current(t), p.treasury)
  {
    var s: World;
    steps, s := OneSigns(p, start, row);
    steps, s := Weighs(p, start, steps, s, 0);
    hide Enough, Reaches, Run;
    t := s.(signerSets := s.signerSets + [current]);
    assert Apply(p, s, ChangeSigners(current)) == Some(t);
    Then(p, start, steps, s, ChangeSigners(current), t);
    steps, t := Sends(p, start, steps + [ChangeSigners(current)], t, 0);
    assert [] + [Submission([row], Some(0))] == [Submission([row], Some(0))];
  }
}
