/**
 Submitting a contract call a member signed: claimed, sent, and then landed, released or left
 claimed according to what the network said. Each statement and each exchange with the
 network is one step, and any number of submitters interleave. The network may include any
 sending it has not turned away, at any time, and answers only what is so.
 */
module MemberCalls {
  import opened Common

  datatype Row = Row(org: int, owner: string, expires: int, submitted: bool, landed: bool)

  /** What has become of one sending of an envelope. */
  datatype Fate = Pending | Included | Refused

  /** What a submitter is told about its sending. */
  datatype Answer =
    | TurnedAway      // refused before it reached a ledger
    | Stale           // refused because the wallet's sequence has moved on
    | OnLedger        // included, whether or not it then failed
    | NotKnown        // nothing was established

  datatype Submitter =
    | Claimed(hash: string, org: int)
    | Sending(hash: string, org: int)
    | ToRelease(hash: string, org: int)
    | ToLand(hash: string, org: int)
    | Done

  /** `sends` is the fate of every sending of each envelope there has been, in order. */
  datatype World = World(rows: map<string, Row>, now: int, submitters: map<nat, Submitter>, sends: map<string, seq<Fate>>)

  datatype Step =
    | Tick(now: int)
    | Save(hash: string, org: int, owner: string, expires: int)
    | Claim(e: nat, hash: string, org: int, owner: string)
    | BumpFails(e: nat)
    | Send(e: nat)
    | Include(hash: string, i: nat)
    | Hear(e: nat, answer: Answer)
    | Release(e: nat)
    | Land(e: nat)
    | Stop(e: nat)

  function SendsOf(s: World, hash: string): seq<Fate> {
    if hash in s.sends then s.sends[hash] else []
  }

  predicate Claimable(s: World, hash: string, org: int, owner: string) {
    hash in s.rows && s.rows[hash].org == org && s.rows[hash].owner == owner
    && !s.rows[hash].submitted && s.rows[hash].expires > s.now
  }

  function Goes(s: World, e: nat, x: Submitter): World {
    s.(submitters := s.submitters[e := x])
  }

  /** The last sending of an envelope, which the submitter that has it in hand made. */
  predicate LastIs(os: seq<Fate>, f: Fate) {
    os != [] && os[|os| - 1] == f
  }

  /** The network only answers what is so; what it turns away it never includes. */
  predicate True(os: seq<Fate>, a: Answer) {
    match a
    case TurnedAway => LastIs(os, Pending)
    case Stale => LastIs(os, Pending)
    case OnLedger => LastIs(os, Included)
    case NotKnown => true
  }

  function Settled(os: seq<Fate>, a: Answer): seq<Fate> {
    if os != [] && (a.TurnedAway? || a.Stale?) then os[|os| - 1 := Refused] else os
  }

  /** What the submitter does with an answer: only an envelope turned away is released. */
  function After(hash: string, org: int, a: Answer): Submitter {
    match a
    case TurnedAway => ToRelease(hash, org)
    case OnLedger => ToLand(hash, org)
    case _ => Done
  }

  function Apply(s: World, step: Step): Option<World> {
    match step
    case Tick(now) => if s.now <= now then Some(s.(now := now)) else None
    case Save(hash, org, owner, expires) =>
      if hash in s.rows then Some(s) else Some(s.(rows := s.rows[hash := Row(org, owner, expires, false, false)]))
    case Claim(e, hash, org, owner) =>
      if e in s.submitters then None
      else if Claimable(s, hash, org, owner) then
        Some(Goes(s.(rows := s.rows[hash := s.rows[hash].(submitted := true)]), e, Claimed(hash, org)))
      else Some(Goes(s, e, Done))
    case BumpFails(e) =>
      if e in s.submitters && s.submitters[e].Claimed?
      then Some(Goes(s, e, ToRelease(s.submitters[e].hash, s.submitters[e].org))) else None
    case Send(e) =>
      if e in s.submitters && s.submitters[e].Claimed? then
        var x := s.submitters[e];
        Some(Goes(s.(sends := s.sends[x.hash := SendsOf(s, x.hash) + [Pending]]), e, Sending(x.hash, x.org)))
      else None
    case Include(hash, i) =>
      if i < |SendsOf(s, hash)| && SendsOf(s, hash)[i] == Pending
      then Some(s.(sends := s.sends[hash := SendsOf(s, hash)[i := Included]])) else None
    case Hear(e, answer) =>
      if e in s.submitters && s.submitters[e].Sending? && True(SendsOf(s, s.submitters[e].hash), answer) then
        var x := s.submitters[e];
        Some(Goes(s.(sends := s.sends[x.hash := Settled(SendsOf(s, x.hash), answer)]), e, After(x.hash, x.org, answer)))
      else None
    case Release(e) =>
      if e in s.submitters && s.submitters[e].ToRelease? then
        var x := s.submitters[e];
        var rows := if x.hash in s.rows && s.rows[x.hash].org == x.org && !s.rows[x.hash].landed
                    then s.rows[x.hash := s.rows[x.hash].(submitted := false)] else s.rows;
        Some(Goes(s.(rows := rows), e, Done))
      else None
    case Land(e) =>
      if e in s.submitters && s.submitters[e].ToLand? then
        var x := s.submitters[e];
        var rows := if x.hash in s.rows && s.rows[x.hash].org == x.org
                    then s.rows[x.hash := s.rows[x.hash].(landed := true)] else s.rows;
        Some(Goes(s.(rows := rows), e, Done))
      else None
    case Stop(e) => if e in s.submitters then Some(Goes(s, e, Done)) else None
  }

  function Run(s: World, steps: seq<Step>): Option<World> {
    if steps == [] then Some(s) else
      var before := Run(s, steps[..|steps| - 1]);
      if before.None? then None else Apply(before.value, steps[|steps| - 1])
  }

  function Empty(now: int): World {
    World(map[], now, map[], map[])
  }

  // ----- what every step keeps -----

  predicate Active(x: Submitter) {
    !x.Done?
  }

  predicate AllRefused(os: seq<Fate>) {
    forall i :: 0 <= i < |os| ==> os[i] == Refused
  }

  /** Every sending but the last was turned away. */
  predicate Resendable(os: seq<Fate>) {
    forall i :: 0 <= i < |os| - 1 ==> os[i] == Refused
  }

  /** How often an envelope is on the ledger. */
  function Landings(os: seq<Fate>): nat {
    if os == [] then 0 else Landings(os[..|os| - 1]) + if os[|os| - 1] == Included then 1 else 0
  }

  lemma {:induction false} RefusedNeverLanded(os: seq<Fate>)
    requires AllRefused(os)
    ensures Landings(os) == 0
  {
    if os != [] {
      RefusedNeverLanded(os[..|os| - 1]);
    }
  }

  lemma ResendableLandsOnce(os: seq<Fate>)
    requires Resendable(os)
    ensures Landings(os) <= 1
  {
    if os != [] {
      RefusedNeverLanded(os[..|os| - 1]);
    }
  }

  /** A submitter's claim is on the row, and its own sending is the last. */
  predicate Sound(s: World, x: Submitter) {
    Active(x) ==>
      && x.hash in s.rows && s.rows[x.hash].submitted && s.rows[x.hash].org == x.org
      && var os := SendsOf(s, x.hash);
         match x
         case Claimed(_, _) => AllRefused(os)
         case ToRelease(_, _) => AllRefused(os)
         case Sending(_, _) => os != [] && os[|os| - 1] != Refused
         case ToLand(_, _) => LastIs(os, Included)
         case Done => true
  }

  /** No envelope is in the hands of two submitters. */
  ghost predicate OneEach(s: World) {
    forall d, e | d in s.submitters && e in s.submitters && Active(s.submitters[d]) && Active(s.submitters[e]) ::
      s.submitters[d].hash == s.submitters[e].hash ==> d == e
  }

  ghost predicate Inv(s: World) {
    && (forall e :: e in s.submitters ==> Sound(s, s.submitters[e]))
    && OneEach(s)
    && (forall h :: Resendable(SendsOf(s, h)))
    && (forall h :: h in s.rows && !s.rows[h].submitted ==> AllRefused(SendsOf(s, h)))
    && (forall h :: h !in s.rows ==> SendsOf(s, h) == [])
  }

  lemma AppendSend(os: seq<Fate>)
    requires AllRefused(os)
    ensures Resendable(os + [Pending])
  {
  }

  lemma SettleSend(os: seq<Fate>, a: Answer)
    requires os != [] && Resendable(os) && True(os, a)
    ensures Resendable(Settled(os, a)) && |Settled(os, a)| == |os|
    ensures a.TurnedAway? ==> AllRefused(Settled(os, a))
    ensures a.OnLedger? ==> LastIs(Settled(os, a), Included)
  {
  }

  /** A step of one submitter disturbs no other: they have different envelopes. */
  lemma OthersStaySound(s: World, t: World, e: nat)
    requires Inv(s) && e in s.submitters && Active(s.submitters[e])
    requires forall h :: h != s.submitters[e].hash ==>
                           && SendsOf(t, h) == SendsOf(s, h)
                           && (h in t.rows <==> h in s.rows) && (h in s.rows ==> t.rows[h] == s.rows[h])
    requires t.submitters.Keys == s.submitters.Keys
    requires forall d :: d in s.submitters && d != e ==> t.submitters[d] == s.submitters[d]
    ensures forall d :: d in t.submitters && d != e ==> Sound(t, t.submitters[d])
  {
    forall d | d in t.submitters && d != e ensures Sound(t, t.submitters[d]) {
      assert Sound(s, s.submitters[d]);
    }
  }

  lemma ApplyKeeps(s: World, step: Step)
    requires Inv(s) && Apply(s, step).Some?
    ensures Inv(Apply(s, step).value)
  {
    var t := Apply(s, step).value;
    if step.Send? {
      SendKeeps(s, step.e);
    } else if step.Hear? {
      HearKeeps(s, step.e, step.answer);
    } else if step.Release? {
      ReleaseKeeps(s, step.e);
    } else if step.Land? {
      LandKeeps(s, step.e);
    } else if step.Claim? {
      ClaimKeeps(s, step);
    } else if step.Include? {
      IncludeKeeps(s, step.hash, step.i);
    } else {
      forall d | d in t.submitters ensures Sound(t, t.submitters[d]) {
        assert Sound(s, s.submitters[d]);
      }
      forall h ensures Resendable(SendsOf(t, h)) && (h in t.rows && !t.rows[h].submitted ==> AllRefused(SendsOf(t, h))) {
        assert SendsOf(t, h) == SendsOf(s, h);
      }
    }
  }

  lemma ClaimKeeps(s: World, step: Step)
    requires Inv(s) && step.Claim? && Apply(s, step).Some?
    ensures Inv(Apply(s, step).value)
  {
    var t := Apply(s, step).value;
    forall h ensures SendsOf(t, h) == SendsOf(s, h) {
    }
    forall d | d in t.submitters ensures Sound(t, t.submitters[d]) {
      assert d in s.submitters ==> Sound(s, s.submitters[d]);
    }
    forall d | d in s.submitters && Active(s.submitters[d])
      ensures Claimable(s, step.hash, step.org, step.owner) ==> s.submitters[d].hash != step.hash
    {
      assert Sound(s, s.submitters[d]);
    }
  }

  lemma SendKeeps(s: World, e: nat)
    requires Inv(s) && Apply(s, Send(e)).Some?
    ensures Inv(Apply(s, Send(e)).value)
  {
    hide Resendable, AllRefused, LastIs, True, Settled;
    var t := Apply(s, Send(e)).value;
    var x := s.submitters[e];
    assert Sound(s, x);
    AppendSend(SendsOf(s, x.hash));
    forall h ensures SendsOf(t, h) == if h == x.hash then SendsOf(s, h) + [Pending] else SendsOf(s, h) {
    }
    OthersStaySound(s, t, e);
    assert Sound(t, t.submitters[e]) && t.rows == s.rows && t.submitters == s.submitters[e := Sending(x.hash, x.org)];
  }

  lemma HearKeeps(s: World, e: nat, a: Answer)
    requires Inv(s) && Apply(s, Hear(e, a)).Some?
    ensures Inv(Apply(s, Hear(e, a)).value)
  {
    hide Resendable, AllRefused, Settled, LastIs, True;
    var t := Apply(s, Hear(e, a)).value;
    var x := s.submitters[e];
    assert Sound(s, x);
    SettleSend(SendsOf(s, x.hash), a);
    forall h ensures SendsOf(t, h) == if h == x.hash then Settled(SendsOf(s, h), a) else SendsOf(s, h) {
    }
    OthersStaySound(s, t, e);
  }

  /** Only the last sending of an envelope can still be pending, so only that one lands. */
  lemma IncludeKeeps(s: World, hash: string, i: nat)
    requires Inv(s) && Apply(s, Include(hash, i)).Some?
    ensures Inv(Apply(s, Include(hash, i)).value)
  {
    var t := Apply(s, Include(hash, i)).value;
    var os := SendsOf(s, hash);
    assert Resendable(os);
    assert i == |os| - 1;
    forall h ensures SendsOf(t, h) == if h == hash then os[i := Included] else SendsOf(s, h) {
    }
    forall d | d in t.submitters ensures Sound(t, t.submitters[d]) {
      assert Sound(s, s.submitters[d]);
      assert !AllRefused(os);
    }
    assert Resendable(os[i := Included]);
    hide Sound, Resendable, AllRefused;
  }

  lemma ReleaseKeeps(s: World, e: nat)
    requires Inv(s) && Apply(s, Release(e)).Some?
    ensures Inv(Apply(s, Release(e)).value)
  {
    var t := Apply(s, Release(e)).value;
    assert Sound(s, s.submitters[e]);
    forall h ensures SendsOf(t, h) == SendsOf(s, h) {
    }
    OthersStaySound(s, t, e);
    hide Resendable, AllRefused, SendsOf;
  }

  lemma LandKeeps(s: World, e: nat)
    requires Inv(s) && Apply(s, Land(e)).Some?
    ensures Inv(Apply(s, Land(e)).value)
  {
    var t := Apply(s, Land(e)).value;
    assert Sound(s, s.submitters[e]);
    forall h ensures SendsOf(t, h) == SendsOf(s, h) {
    }
    OthersStaySound(s, t, e);
    hide Resendable, AllRefused, SendsOf;
  }

  lemma {:induction false} RunKeeps(s: World, steps: seq<Step>)
    requires Inv(s) && Run(s, steps).Some?
    ensures Inv(Run(s, steps).value)
  {
    hide Inv, Apply;
    if steps != [] {
      var init := steps[..|steps| - 1];
      RunKeeps(s, init);
      ApplyKeeps(Run(s, init).value, steps[|steps| - 1]);
    }
  }

  /**
   In every run: at most one submitter at a time has a call's envelope in hand; an envelope is
   sent again only after every earlier sending of it was turned away; it is on the ledger at
   most once, although the network may include any sending it has not turned away; what can
   be claimed, or is being released, has not landed.
   */
  lemma CallsLandOnce(now: int, steps: seq<Step>)
    requires Run(Empty(now), steps).Some?
    ensures var t := Run(Empty(now), steps).value;
            && OneEach(t)
            && (forall h :: Resendable(SendsOf(t, h)) && Landings(SendsOf(t, h)) <= 1)
            && (forall e :: e in t.submitters && (t.submitters[e].Claimed? || t.submitters[e].ToRelease?) ==>
                              AllRefused(SendsOf(t, t.submitters[e].hash)) && Landings(SendsOf(t, t.submitters[e].hash)) == 0)
            && (forall h, o, w :: Claimable(t, h, o, w) ==> AllRefused(SendsOf(t, h)) && Landings(SendsOf(t, h)) == 0)
  {
    RunKeeps(Empty(now), steps);
    var t := Run(Empty(now), steps).value;
    assert forall e :: e in t.submitters ==> Sound(t, t.submitters[e]);
    hide Run, Resendable, AllRefused, Landings;
    forall h ensures Landings(SendsOf(t, h)) <= 1 && (AllRefused(SendsOf(t, h)) ==> Landings(SendsOf(t, h)) == 0) {
      ResendableLandsOnce(SendsOf(t, h));
      if AllRefused(SendsOf(t, h)) {
        RefusedNeverLanded(SendsOf(t, h));
      }
    }
  }

  /** Claimed for good: nobody has the envelope in hand, or only to record that it landed. */
  ghost predicate Over(s: World, hash: string) {
    && hash in s.rows && s.rows[hash].submitted
    && forall e :: e in s.submitters && Active(s.submitters[e]) && s.submitters[e].hash == hash ==> s.submitters[e].ToLand?
  }

  lemma OverStep(s: World, step: Step, hash: string)
    requires Over(s, hash) && Apply(s, step).Some?
    ensures var t := Apply(s, step).value; Over(t, hash) && |SendsOf(t, hash)| == |SendsOf(s, hash)|
  {
  }

  lemma {:induction false} OverStays(s: World, steps: seq<Step>, hash: string)
    requires Over(s, hash) && Run(s, steps).Some?
    ensures var t := Run(s, steps).value; Over(t, hash) && |SendsOf(t, hash)| == |SendsOf(s, hash)|
  {
    hide Over, Apply;
    if steps != [] {
      var init := steps[..|steps| - 1];
      OverStays(s, init, hash);
      OverStep(Run(s, init).value, steps[|steps| - 1], hash);
    }
  }

  /** What leaves a claim where it is: any answer but being turned away, or none at all. */
  predicate Leaves(step: Step, e: nat) {
    (step.Hear? && step.e == e && !step.answer.TurnedAway?) || step == Stop(e)
  }

  lemma LeavingIsOver(s: World, step: Step, e: nat)
    requires Inv(s) && e in s.submitters && s.submitters[e].Sending? && Leaves(step, e) && Apply(s, step).Some?
    ensures Over(Apply(s, step).value, s.submitters[e].hash)
  {
    assert Sound(s, s.submitters[e]);
    hide Resendable, AllRefused;
  }

  /** In every run: an envelope that landed, that is stale, whose outcome is not known or whose
      submitter died after sending is never sent again. */
  lemma NeverSentAgain(now: int, before: seq<Step>, s: World, e: nat, step: Step, after: seq<Step>, t: World)
    requires Run(Empty(now), before) == Some(s) && e in s.submitters && s.submitters[e].Sending?
    requires Leaves(step, e) && Apply(s, step).Some? && Run(Apply(s, step).value, after) == Some(t)
    ensures |SendsOf(t, s.submitters[e].hash)| == |SendsOf(Apply(s, step).value, s.submitters[e].hash)|
  {
    RunKeeps(Empty(now), before);
    hide Run, Apply, Inv, Over;
    LeavingIsOver(s, step, e);
    OverStays(Apply(s, step).value, after, s.submitters[e].hash);
  }

  /** Once on the ledger, nothing more becomes of an envelope: it is not sent again, nor is its
      last sending turned away, whatever its submitter has heard. */
  lemma LandedStep(s: World, step: Step, hash: string)
    requires Inv(s) && LastIs(SendsOf(s, hash), Included) && Apply(s, step).Some?
    ensures SendsOf(Apply(s, step).value, hash) == SendsOf(s, hash)
  {
    var os := SendsOf(s, hash);
    assert Resendable(os) && !AllRefused(os);
    if (step.Send? || step.Hear?) && s.submitters[step.e].hash == hash {
      assert Sound(s, s.submitters[step.e]);
    }
  }

  lemma {:induction false} LandedIsFinal(s: World, steps: seq<Step>, hash: string)
    requires Inv(s) && LastIs(SendsOf(s, hash), Included) && Run(s, steps).Some?
    ensures SendsOf(Run(s, steps).value, hash) == SendsOf(s, hash)
  {
    hide Inv, Apply;
    if steps != [] {
      var init := steps[..|steps| - 1];
      LandedIsFinal(s, init, hash);
      RunKeeps(s, init);
      LandedStep(Run(s, init).value, steps[|steps| - 1], hash);
    }
  }

  /** In every run, from the moment an envelope lands it is never sent again. */
  lemma LandedNeverSentAgain(now: int, before: seq<Step>, s: World, hash: string, after: seq<Step>, t: World)
    requires Run(Empty(now), before) == Some(s) && Landings(SendsOf(s, hash)) > 0 && Run(s, after) == Some(t)
    ensures SendsOf(t, hash) == SendsOf(s, hash)
  {
    RunKeeps(Empty(now), before);
    assert Resendable(SendsOf(s, hash));
    LandedIsLast(SendsOf(s, hash));
    hide Run, Inv, SendsOf, Landings;
    LandedIsFinal(s, after, hash);
  }

  lemma LandedIsLast(os: seq<Fate>)
    requires Resendable(os) && Landings(os) > 0
    ensures LastIs(os, Included)
  {
    RefusedNeverLanded(os[..|os| - 1]);
  }

  // ----- what an answer comes to -----

  /** What is recorded as landed has landed, and is claimed for good. */
  ghost predicate RecordedTruly(s: World) {
    forall h :: h in s.rows && s.rows[h].landed ==> s.rows[h].submitted && LastIs(SendsOf(s, h), Included)
  }

  lemma RecordStep(s: World, step: Step)
    requires Inv(s) && RecordedTruly(s) && Apply(s, step).Some?
    ensures RecordedTruly(Apply(s, step).value)
  {
    var t := Apply(s, step).value;
    forall h | h in t.rows && t.rows[h].landed ensures t.rows[h].submitted && LastIs(SendsOf(t, h), Included) {
      LandedRow(s, step, h);
    }
    hide Inv, Apply, SendsOf;
  }

  lemma LandedRow(s: World, step: Step, h: string)
    requires Inv(s) && RecordedTruly(s) && Apply(s, step).Some?
    requires h in Apply(s, step).value.rows && Apply(s, step).value.rows[h].landed
    ensures var t := Apply(s, step).value; t.rows[h].submitted && LastIs(SendsOf(t, h), Included)
  {
    if h in s.rows && s.rows[h].landed {
      LandedStep(s, step, h);
      if step.Release? {
        assert Sound(s, s.submitters[step.e]);
      }
    } else {
      assert step.Land?;
      assert Sound(s, s.submitters[step.e]);
    }
  }

  lemma {:induction false} RecordsAreTrue(now: int, steps: seq<Step>)
    requires Run(Empty(now), steps).Some?
    ensures Inv(Run(Empty(now), steps).value) && RecordedTruly(Run(Empty(now), steps).value)
  {
    RunKeeps(Empty(now), steps);
    hide Inv, Apply;
    if steps != [] {
      var init := steps[..|steps| - 1];
      RecordsAreTrue(now, init);
      RecordStep(Run(Empty(now), init).value, steps[|steps| - 1]);
    }
  }

  /** The submitter does nothing of its own. */
  predicate LeavesAlone(steps: seq<Step>, e: nat) {
    forall i :: 0 <= i < |steps| ==> steps[i] != Stop(e) && steps[i] != Release(e) && steps[i] != Land(e)
  }

  predicate Answered(x: Submitter) {
    x.ToRelease? || x.ToLand? || x.Done?
  }

  lemma AnsweredStep(s: World, step: Step, e: nat)
    requires e in s.submitters && Answered(s.submitters[e]) && Apply(s, step).Some?
    requires step != Stop(e) && step != Release(e) && step != Land(e)
    ensures var t := Apply(s, step).value; e in t.submitters && t.submitters[e] == s.submitters[e]
  {
  }

  lemma {:induction false} AnsweredStays(s: World, steps: seq<Step>, e: nat)
    requires e in s.submitters && Answered(s.submitters[e]) && LeavesAlone(steps, e) && Run(s, steps).Some?
    ensures var t := Run(s, steps).value; e in t.submitters && t.submitters[e] == s.submitters[e]
  {
    hide Apply, Answered;
    if steps != [] {
      var init := steps[..|steps| - 1];
      AnsweredStays(s, init, e);
      AnsweredStep(Run(s, init).value, steps[|steps| - 1], e);
    }
  }

  /** A claim given back can be taken again, by its org and owner until it expires. */
  ghost predicate CanBeReclaimed(t: World, e: nat, hash: string) {
    && Apply(t, Release(e)).Some?
    && var u := Apply(t, Release(e)).value;
       && hash in t.rows && hash in u.rows && u.rows[hash] == t.rows[hash].(submitted := false)
       && forall o, w :: Claimable(u, hash, o, w) <==>
                           o == t.rows[hash].org && w == t.rows[hash].owner && t.now < t.rows[hash].expires
  }

  /** What landed is recorded as landed, and stays claimed. */
  ghost predicate IsRecorded(t: World, e: nat, hash: string) {
    && Apply(t, Land(e)).Some?
    && var u := Apply(t, Land(e)).value;
       hash in t.rows && hash in u.rows && u.rows[hash] == t.rows[hash].(landed := true) && u.rows[hash].submitted
  }

  lemma ReleaseGivesBack(s: World, e: nat)
    requires Inv(s) && RecordedTruly(s) && e in s.submitters && s.submitters[e].ToRelease?
    ensures CanBeReclaimed(s, e, s.submitters[e].hash)
  {
    assert Sound(s, s.submitters[e]);
  }

  lemma LandRecords(s: World, e: nat)
    requires Inv(s) && e in s.submitters && s.submitters[e].ToLand?
    ensures IsRecorded(s, e, s.submitters[e].hash)
  {
    assert Sound(s, s.submitters[e]);
  }

  lemma {:induction false} RunOn(s: World, before: seq<Step>, after: seq<Step>)
    requires Run(s, before).Some?
    ensures Run(s, before + after) == Run(Run(s, before).value, after)
  {
    hide Apply;
    if after == [] {
      assert before + after == before;
    } else {
      var init := after[..|after| - 1];
      RunOn(s, before, init);
      assert (before + after)[..|before + after| - 1] == before + init;
    }
  }

  lemma HearingAnswers(s: World, e: nat, answer: Answer)
    requires e in s.submitters && s.submitters[e].Sending? && Apply(s, Hear(e, answer)).Some?
    ensures var t, hash := Apply(s, Hear(e, answer)).value, s.submitters[e].hash;
            && e in t.submitters && Answered(t.submitters[e]) && t.rows == s.rows
            && (answer.TurnedAway? <==> t.submitters[e].ToRelease?)
            && (answer.OnLedger? <==> t.submitters[e].ToLand?)
            && (!t.submitters[e].Done? ==> t.submitters[e].hash == hash)
  {
  }

  lemma OnlyTheirs(s: World, e: nat)
    requires e in s.submitters
    ensures Apply(s, Release(e)).Some? <==> s.submitters[e].ToRelease?
    ensures Apply(s, Land(e)).Some? <==> s.submitters[e].ToLand?
  {
  }

  /**
   In every run, an answer and whatever happens before its submitter acts on it: a call that
   was turned away is given back, and its owner can claim it again until it expires; one that
   is on the ledger is recorded as landed; and after any other answer neither is done.
   */
  lemma AnswerDecides(now: int, before: seq<Step>, s: World, e: nat, answer: Answer, between: seq<Step>, t: World)
    requires Run(Empty(now), before) == Some(s) && e in s.submitters && s.submitters[e].Sending?
    requires Apply(s, Hear(e, answer)).Some? && LeavesAlone(between, e)
    requires Run(Apply(s, Hear(e, answer)).value, between) == Some(t)
    ensures answer.TurnedAway? ==> CanBeReclaimed(t, e, s.submitters[e].hash)
    ensures answer.OnLedger? ==> IsRecorded(t, e, s.submitters[e].hash)
    ensures !answer.TurnedAway? ==> Apply(t, Release(e)).None?
    ensures !answer.OnLedger? ==> Apply(t, Land(e)).None?
  {
    hide *;
    var u := Apply(s, Hear(e, answer)).value;
    HearingAnswers(s, e, answer);
    RunOneMore(Empty(now), before, Hear(e, answer));
    RunOn(Empty(now), before + [Hear(e, answer)], between);
    RecordsAreTrue(now, before + [Hear(e, answer)] + between);
    AnsweredStays(u, between, e);
    OnlyTheirs(t, e);
    if answer.TurnedAway? {
      ReleaseGivesBack(t, e);
    }
    if answer.OnLedger? {
      LandRecords(t, e);
    }
  }

  lemma RunOneMore(s: World, steps: seq<Step>, step: Step)
    requires Run(s, steps).Some?
    ensures Run(s, steps + [step]) == Apply(Run(s, steps).value, step)
  {
    hide Apply;
    assert (steps + [step])[..|steps|] == steps;
  }

  /** The same after a claim that came to nothing because the bump failed. */
  lemma FailedBumpGivesBack(now: int, before: seq<Step>, s: World, e: nat, between: seq<Step>, t: World)
    requires Run(Empty(now), before) == Some(s) && e in s.submitters && s.submitters[e].Claimed?
    requires Apply(s, BumpFails(e)).Some? && LeavesAlone(between, e)
    requires Run(Apply(s, BumpFails(e)).value, between) == Some(t)
    ensures CanBeReclaimed(t, e, s.submitters[e].hash)
  {
    hide *;
    BumpingFails(s, e);
    RunOneMore(Empty(now), before, BumpFails(e));
    RunOn(Empty(now), before + [BumpFails(e)], between);
    RecordsAreTrue(now, before + [BumpFails(e)] + between);
    AnsweredStays(Apply(s, BumpFails(e)).value, between, e);
    ReleaseGivesBack(t, e);
  }

  lemma BumpingFails(s: World, e: nat)
    requires e in s.submitters && s.submitters[e].Claimed? && Apply(s, BumpFails(e)).Some?
    ensures var t := Apply(s, BumpFails(e)).value;
            e in t.submitters && Answered(t.submitters[e]) && t.submitters[e].ToRelease?
            && t.submitters[e].hash == s.submitters[e].hash
  {
  }

  /** A claim passes exactly when it is the row's org's and owner's, and nobody has claimed it
      and it has not expired. */
  lemma RightfulClaimPasses(s: World, e: nat, hash: string, org: int, owner: string)
    requires e !in s.submitters
    ensures var t := Apply(s, Claim(e, hash, org, owner));
            && t.Some? && e in t.value.submitters
            && (t.value.submitters[e].Claimed? <==>
                  && hash in s.rows && s.rows[hash].org == org && s.rows[hash].owner == owner
                  && !s.rows[hash].submitted && s.now < s.rows[hash].expires)
            && (t.value.submitters[e].Claimed? ==> t.value.rows == s.rows[hash := s.rows[hash].(submitted := true)])
            && (!t.value.submitters[e].Claimed? ==> t.value.rows == s.rows)
  {
  }

  /** Saving records a call that is new, unclaimed, and leaves one that is there as it is. */
  lemma SavingRecords(s: World, hash: string, org: int, owner: string, expires: int)
    ensures var t := Apply(s, Save(hash, org, owner, expires));
            && t.Some? && hash in t.value.rows
            && (hash in s.rows ==> t.value == s)
            && (hash !in s.rows ==> t.value == s.(rows := s.rows[hash := Row(org, owner, expires, false, false)]))
  {
  }

  lemma RunFrom(s: World, step: Step, steps: seq<Step>)
    requires Apply(s, step).Some?
    ensures Run(s, [step] + steps) == Run(Apply(s, step).value, steps)
  {
    hide Apply;
    assert [step][..0] == [];
    assert Run(s, []) == Some(s);
    RunOn(s, [step], steps);
  }

  /** And the ordinary run is one: recorded, claimed in time, sent, included, heard and recorded
      as landed. */
  lemma CallMayLand(hash: string, org: int, owner: string, now: int, later: int, expires: int)
    requires now <= later < expires
    ensures var t := Run(Empty(now), [Save(hash, org, owner, expires)] + ([Tick(later)] + ([Claim(0, hash, org, owner)] +
                       ([Send(0)] + ([Include(hash, 0)] + ([Hear(0, OnLedger)] + ([Land(0)] + [])))))));
            t.Some? && hash in t.value.rows && t.value.rows[hash] == Row(org, owner, expires, true, true)
            && SendsOf(t.value, hash) == [Included]
  {
    hide Run;
    var s0 := Empty(now);
    var s1 := Apply(s0, Save(hash, org, owner, expires)).value;
    var s2 := Apply(s1, Tick(later)).value;
    var s3 := Apply(s2, Claim(0, hash, org, owner)).value;
    SentCallMayLand(s3, hash, org, owner, expires);
    hide Apply;
    var rest := [Send(0)] + ([Include(hash, 0)] + ([Hear(0, OnLedger)] + ([Land(0)] + [])));
    RunFrom(s2, Claim(0, hash, org, owner), rest);
    RunFrom(s1, Tick(later), [Claim(0, hash, org, owner)] + rest);
    RunFrom(s0, Save(hash, org, owner, expires), [Tick(later)] + ([Claim(0, hash, org, owner)] + rest));
  }

  lemma SentCallMayLand(s: World, hash: string, org: int, owner: string, expires: int)
    requires 0 in s.submitters && s.submitters[0] == Claimed(hash, org) && SendsOf(s, hash) == []
    requires hash in s.rows && s.rows[hash] == Row(org, owner, expires, true, false)
    ensures var t := Run(s, [Send(0)] + ([Include(hash, 0)] + ([Hear(0, OnLedger)] + ([Land(0)] + []))));
            t.Some? && hash in t.value.rows && t.value.rows[hash] == Row(org, owner, expires, true, true)
            && SendsOf(t.value, hash) == [Included]
  {
    hide Run;
    var s1 := Apply(s, Send(0)).value;
    assert SendsOf(s1, hash) == [] + [Pending] && s1.submitters[0] == Sending(hash, org) && s1.rows == s.rows;
    IncludedCallIsRecorded(s1, hash, org, owner, expires);
    hide Apply;
    RunFrom(s, Send(0), [Include(hash, 0)] + ([Hear(0, OnLedger)] + ([Land(0)] + [])));
  }

  lemma IncludedCallIsRecorded(s: World, hash: string, org: int, owner: string, expires: int)
    requires 0 in s.submitters && s.submitters[0] == Sending(hash, org) && SendsOf(s, hash) == [Pending]
    requires hash in s.rows && s.rows[hash] == Row(org, owner, expires, true, false)
    ensures var t := Run(s, [Include(hash, 0)] + ([Hear(0, OnLedger)] + ([Land(0)] + [])));
            t.Some? && hash in t.value.rows && t.value.rows[hash] == Row(org, owner, expires, true, true)
            && SendsOf(t.value, hash) == [Included]
  {
    hide Run;
    var s1 := Apply(s, Include(hash, 0)).value;
    assert SendsOf(s1, hash) == [Included] && s1.submitters == s.submitters && s1.rows == s.rows;
    var s2 := Apply(s1, Hear(0, OnLedger)).value;
    assert SendsOf(s2, hash) == [Included] && s2.submitters[0] == ToLand(hash, org) && s2.rows == s.rows;
    var s3 := Apply(s2, Land(0)).value;
    assert SendsOf(s3, hash) == [Included] && s3.rows[hash] == Row(org, owner, expires, true, true);
    hide Apply;
    RunsNothing(s3);
    RunFrom(s2, Land(0), []);
    RunFrom(s1, Hear(0, OnLedger), [Land(0)] + []);
    RunFrom(s, Include(hash, 0), [Hear(0, OnLedger)] + ([Land(0)] + []));
  }

  lemma RunsNothing(s: World)
    ensures Run(s, []) == Some(s)
  {
  }

  /** At any time the clock may go on, a submitter stop, and the network include a sending that it
      has neither included nor turned away. */
  lemma TheWorldMoves(s: World)
    ensures forall now :: Apply(s, Tick(now)).Some? <==> s.now <= now
    ensures forall e :: Apply(s, Stop(e)).Some? <==> e in s.submitters
    ensures forall hash, i: nat ::
              Apply(s, Include(hash, i)).Some? <==> i < |SendsOf(s, hash)| && SendsOf(s, hash)[i] == Pending
  {
  }
}
