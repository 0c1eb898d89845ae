/**
 Claiming a pending send: a conditional update, and, when it changes nothing, a second
 statement that reads the row to say why. Each statement is one step, and any number of
 submitters interleave.
 */
module Sends {
  import opened Common

  datatype Row = Row(org: int, owner: string, expires: int, submitted: bool)

  datatype Reason = UnknownTransaction | NotYours | AlreadySubmitted | HasExpired

  /** `found` says whether the row was there when the claim was refused. */
  datatype Submitter =
    | Passed(hash: string, org: int, owner: string, at: int)
    | Refused(hash: string, org: int, owner: string, found: bool)
    | Told(reason: Reason)

  datatype World = World(rows: map<string, Row>, now: int, submitters: map<nat, Submitter>)

  datatype Step =
    | Tick(now: int)
    | Record(hash: string, org: int, owner: string, expires: int)
    | Claim(e: nat, hash: string, org: int, owner: string)
    | Explain(e: nat)

  predicate Claimable(s: World, hash: string, org: int, owner: string) {
    hash in s.rows && s.rows[hash].org == org && s.rows[hash].owner == owner
    && !s.rows[hash].submitted && s.rows[hash].expires > s.now
  }

  /** explainRefusal, which reads the row as it is by then. */
  function Why(s: World, hash: string, org: int, owner: string): Reason {
    if hash !in s.rows || s.rows[hash].org != org then UnknownTransaction
    else if s.rows[hash].owner != owner then NotYours
    else if s.rows[hash].submitted then AlreadySubmitted
    else HasExpired
  }

  /** The reason is a fact about the send. */
  predicate Truthful(s: World, hash: string, org: int, owner: string, reason: Reason) {
    match reason
    case UnknownTransaction => hash !in s.rows || s.rows[hash].org != org
    case NotYours => hash in s.rows && s.rows[hash].owner != owner
    case AlreadySubmitted => hash in s.rows && s.rows[hash].submitted
    case HasExpired => hash in s.rows && s.rows[hash].expires <= s.now
  }

  function Apply(s: World, step: Step): Option<World> {
    match step
    case Tick(now) => if s.now <= now then Some(s.(now := now)) else None
    case Record(hash, org, owner, expires) =>
      if hash in s.rows then Some(s) else Some(s.(rows := s.rows[hash := Row(org, owner, expires, false)]))
    case Claim(e, hash, org, owner) =>
      if e in s.submitters then None
      else if Claimable(s, hash, org, owner) then
        Some(s.(rows := s.rows[hash := s.rows[hash].(submitted := true)],
                submitters := s.submitters[e := Passed(hash, org, owner, s.now)]))
      else Some(s.(submitters := s.submitters[e := Refused(hash, org, owner, hash in s.rows)]))
    case Explain(e) =>
      if e in s.submitters && s.submitters[e].Refused? then
        var x := s.submitters[e];
        Some(s.(submitters := s.submitters[e := Told(Why(s, x.hash, x.org, x.owner))]))
      else None
  }

  function Run(s: World, steps: seq<Step>): Option<World> {
    if steps == [] then Some(s) else
      var before := Run(s, steps[..|steps| - 1]);
      if before.None? then None else Apply(before.value, steps[|steps| - 1])
  }

  function Empty(now: int): World {
    World(map[], now, map[])
  }

  /** A submitter that passed holds the row it claimed, as its issuer, before it expired. */
  predicate Holds(s: World, x: Submitter) {
    && (x.Passed? ==> && x.hash in s.rows && s.rows[x.hash].submitted
                      && s.rows[x.hash].org == x.org && s.rows[x.hash].owner == x.owner && x.at < s.rows[x.hash].expires)
    && (x.Refused? && x.found ==> x.hash in s.rows && !Claimable(s, x.hash, x.org, x.owner))
  }

  ghost predicate Inv(s: World) {
    && (forall e :: e in s.submitters ==> Holds(s, s.submitters[e]))
    && (forall d, e | d in s.submitters && e in s.submitters && s.submitters[d].Passed? && s.submitters[e].Passed? ::
          s.submitters[d].hash == s.submitters[e].hash ==> d == e)
  }

  lemma ApplyKeeps(s: World, step: Step)
    requires Inv(s) && Apply(s, step).Some?
    ensures Inv(Apply(s, step).value)
  {
    var t := Apply(s, step).value;
    forall e | e in t.submitters ensures Holds(t, t.submitters[e]) {
      assert e in s.submitters ==> Holds(s, s.submitters[e]);
    }
  }

  lemma {:induction false} RunKeeps(s: World, steps: seq<Step>)
    requires Inv(s) && Run(s, steps).Some?
    ensures Inv(Run(s, steps).value)
  {
    hide Inv, Apply;
    if steps != [] {
      var init := steps[..|steps| - 1];
      RunKeeps(s, init);
      ApplyKeeps(Run(s, init).value, steps[|steps| - 1]);
    }
  }

  /** In every run, at most one submitter ever passes for a hash; and one that passed is the
      org and owner the send was issued to, before it expired. */
  lemma OnePassesPerHash(now: int, steps: seq<Step>, d: nat, e: nat)
    requires var t := Run(Empty(now), steps);
             && t.Some? && d in t.value.submitters && t.value.submitters[d].Passed?
             && e in t.value.submitters && t.value.submitters[e].Passed?
             && t.value.submitters[d].hash == t.value.submitters[e].hash
    ensures d == e
    ensures var t := Run(Empty(now), steps).value;
            var x := t.submitters[e];
            x.hash in t.rows && t.rows[x.hash].org == x.org && t.rows[x.hash].owner == x.owner && x.at < t.rows[x.hash].expires
  {
    RunKeeps(Empty(now), steps);
    var t := Run(Empty(now), steps).value;
    assert Holds(t, t.submitters[e]);
  }

  /** A claim passes exactly when it is the issuing org's and owner's, of a send that nobody has
      claimed and that has not expired; and then nobody can claim it again. */
  lemma RightfulClaimPasses(s: World, e: nat, hash: string, org: int, owner: string)
    requires e !in s.submitters
    ensures var t := Apply(s, Claim(e, hash, org, owner));
            && t.Some? && e in t.value.submitters
            && (t.value.submitters[e].Passed? <==>
                  && hash in s.rows && s.rows[hash].org == org && s.rows[hash].owner == owner
                  && !s.rows[hash].submitted && s.now < s.rows[hash].expires)
            && (t.value.submitters[e].Passed? ==>
                  && t.value.rows == s.rows[hash := s.rows[hash].(submitted := true)]
                  && forall o, w :: !Claimable(t.value, hash, o, w))
            && (!t.value.submitters[e].Passed? ==> t.value.rows == s.rows)
  {
  }

  /** A send that is recorded can be claimed by its owner at any time before it expires. */
  lemma RecordedSendPasses(hash: string, org: int, owner: string, now: int, later: int, expires: int)
    requires now <= later < expires
    ensures var t := Run(Empty(now), [Record(hash, org, owner, expires), Tick(later), Claim(0, hash, org, owner)]);
            t.Some? && t.value.submitters == map[0 := Passed(hash, org, owner, later)]
  {
    var a, b, c := Record(hash, org, owner, expires), Tick(later), Claim(0, hash, org, owner);
    var steps := [a, b, c];
    assert steps[..2] == [a, b] && [a, b][..1] == [a] && [a][..0] == [];
    var s1 := Apply(Empty(now), a).value;
    assert Run(Empty(now), [a]) == Some(s1);
    var s2 := Apply(s1, b).value;
    assert Run(Empty(now), [a, b]) == Some(s2);
  }

  lemma PassedStep(s: World, step: Step, e: nat)
    requires e in s.submitters && s.submitters[e].Passed? && Apply(s, step).Some?
    ensures e in Apply(s, step).value.submitters && Apply(s, step).value.submitters[e] == s.submitters[e]
  {
  }

  /** Whatever happens later, who passed has passed. */
  lemma {:induction false} PassedStays(s: World, steps: seq<Step>, e: nat)
    requires e in s.submitters && s.submitters[e].Passed? && Run(s, steps).Some?
    ensures e in Run(s, steps).value.submitters && Run(s, steps).value.submitters[e] == s.submitters[e]
  {
    hide Apply;
    if steps != [] {
      var init := steps[..|steps| - 1];
      PassedStays(s, init, e);
      PassedStep(Run(s, init).value, steps[|steps| - 1], e);
    }
  }

  /** In every run, the reason a refused submitter is given is true, however much later it is
      read, except when by then the submitter could claim the send: and that is possible only
      if the send was not there yet when the claim was refused. */
  lemma ReasonIsTrueUnlessJustIssued(now: int, steps: seq<Step>, e: nat)
    requires var t := Run(Empty(now), steps); t.Some? && e in t.value.submitters && t.value.submitters[e].Refused?
    ensures var t := Run(Empty(now), steps).value;
            var x := t.submitters[e];
            && (Truthful(t, x.hash, x.org, x.owner, Why(t, x.hash, x.org, x.owner)) <==> !Claimable(t, x.hash, x.org, x.owner))
            && (Claimable(t, x.hash, x.org, x.owner) ==> !x.found)
  {
    RunKeeps(Empty(now), steps);
    var t := Run(Empty(now), steps).value;
    assert Holds(t, t.submitters[e]);
    hide Run;
  }

  /** A send issued between the two statements is reported as expired while it is good. */
  lemma JustIssuedReadsAsExpired(hash: string, org: int, owner: string, now: int, expires: int)
    requires now < expires
    ensures var t := Run(Empty(now), [Claim(0, hash, org, owner), Record(hash, org, owner, expires), Explain(0)]);
            && t.Some? && 0 in t.value.submitters && t.value.submitters[0] == Told(HasExpired)
            && hash in t.value.rows && t.value.rows[hash].expires > t.value.now
  {
    var a, b, c := Claim(0, hash, org, owner), Record(hash, org, owner, expires), Explain(0);
    var steps := [a, b, c];
    assert steps[..2] == [a, b] && [a, b][..1] == [a] && [a][..0] == [];
    var s1 := Apply(Empty(now), a).value;
    assert Run(Empty(now), [a]) == Some(s1);
    var s2 := Apply(s1, b).value;
    assert Run(Empty(now), [a, b]) == Some(s2);
  }
}
