/**
 Provisioning an account at the operator's expense: an enrollment recorded, claimed, granted,
 signed by the operator, sent, and then finalised or its grant released. Each statement and
 each exchange with the network is one step, and any number of submitters interleave.
 */
module Enrollments {

  datatype Row = Row(org: int, owner: string, address: string, expires: int, submitted: bool)

  /** A recorded grant; `hash` is the enrollment it was taken for. */
  datatype Grant = Grant(org: int, address: string, hash: string)

  /** What a claim holds. */
  datatype Ticket = Ticket(hash: string, org: int, owner: string, address: string)

  datatype Submitter =
    | Claimed(t: Ticket)
    | GrantRefused(t: Ticket)
    | Granted(t: Ticket)
    | Signed(t: Ticket)
    | Sent(t: Ticket)
    | NoEffect(t: Ticket)
    | Done

  /** Grants are one for each member. `sent` holds what the operator signed and sent; `landed`
      what reached a ledger; `refused` what the network said had no effect. */
  datatype World = World(
    pending: map<string, Row>, grants: map<int, Grant>, submitters: map<nat, Submitter>, now: int,
    sent: map<string, Ticket>, landed: set<string>, refused: set<string>)

  datatype Answer = OnLedger | HadNoEffect | NotKnown

  datatype Step =
    | Tick(now: int)
    | Record(hash: string, org: int, owner: string, address: string, expires: int)
    | Claim(e: nat, hash: string, org: int, owner: string)
    | TakeGrant(e: nat, allowed: bool)
    | ReleaseClaim(e: nat)
    | Sign(e: nat)
    | Send(e: nat)
    | Include(hash: string)
    | Hear(e: nat, answer: Answer)
    | ReleaseGrant(e: nat)
    | Stop(e: nat)

  /** Which member an owner's chat identity belongs to. */
  type Members = (int, string) -> int

  // ----- the statements -----

  predicate Outstanding(pending: map<string, Row>, hash: string, org: int, owner: string) {
    hash in pending && !pending[hash].submitted && pending[hash].org == org && pending[hash].owner == owner
  }

  /** The unique index: an owner has one enrollment outstanding. */
  ghost predicate OneOutstanding(pending: map<string, Row>) {
    forall g, h | g in pending && h in pending && !pending[g].submitted && !pending[h].submitted ::
      pending[g].org == pending[h].org && pending[g].owner == pending[h].owner ==> g == h
  }

  /** The newest attempt replaces an outstanding one; an envelope already recorded in any
      other row is refused. */
  ghost predicate Recorded(before: map<string, Row>, step: Step, after: map<string, Row>)
    requires step.Record?
  {
    var row := Row(step.org, step.owner, step.address, step.expires, false);
    if exists h :: Outstanding(before, h, step.org, step.owner) then
      exists h :: Outstanding(before, h, step.org, step.owner)
                  && after == (if step.hash != h && step.hash in before then before else (before - {h})[step.hash := row])
    else after == if step.hash in before then before else before[step.hash := row]
  }

  predicate Claimable(s: World, hash: string, org: int, owner: string) {
    Outstanding(s.pending, hash, org, owner) && s.pending[hash].expires > s.now
  }

  function Goes(s: World, e: nat, x: Submitter): World {
    s.(submitters := s.submitters[e := x])
  }

  /** The delete: by org and address, whoever's grant it is. */
  function Without(grants: map<int, Grant>, org: int, address: string): map<int, Grant> {
    map m | m in grants && !(grants[m].org == org && grants[m].address == address) :: grants[m]
  }

  /** An answer that is so: only what did not land, and now never will, had no effect. */
  predicate Heard(s: World, e: nat, k: Ticket, answer: Answer, t: World) {
    match answer
    case OnLedger => k.hash in s.landed && t == Goes(s, e, Done)
    case HadNoEffect => k.hash !in s.landed && t == Goes(s.(refused := s.refused + {k.hash}), e, NoEffect(k))
    case NotKnown => t == Goes(s, e, Done)
  }

  /** One step, from one world to the next. */
  ghost predicate Next(members: Members, s: World, step: Step, t: World) {
    match step
    case Tick(now) => s.now <= now && t == s.(now := now)
    case Record(_, _, _, _, _) => Recorded(s.pending, step, t.pending) && t == s.(pending := t.pending)
    case Claim(e, hash, org, owner) =>
      && e !in s.submitters
      && t == if Claimable(s, hash, org, owner)
              then Goes(s.(pending := s.pending[hash := s.pending[hash].(submitted := true)]), e,
                        Claimed(Ticket(hash, org, owner, s.pending[hash].address)))
              else Goes(s, e, Done)
    case TakeGrant(e, allowed) =>
      && e in s.submitters && s.submitters[e].Claimed?
      && var k := s.submitters[e].t;
         var m := members(k.org, k.owner);
         t == if allowed && m !in s.grants
              then Goes(s.(grants := s.grants[m := Grant(k.org, k.address, k.hash)]), e, Granted(k))
              else Goes(s, e, GrantRefused(k))
    case ReleaseClaim(e) =>
      && e in s.submitters && s.submitters[e].GrantRefused?
      && var k := s.submitters[e].t;
         t == if k.hash in s.pending && s.pending[k.hash].org == k.org
                 && !(exists h :: Outstanding(s.pending, h, k.org, s.pending[k.hash].owner))
              then Goes(s.(pending := s.pending[k.hash := s.pending[k.hash].(submitted := false)]), e, Done)
              else Goes(s, e, Done)
    case Sign(e) => e in s.submitters && s.submitters[e].Granted? && t == Goes(s, e, Signed(s.submitters[e].t))
    case Send(e) =>
      && e in s.submitters && s.submitters[e].Signed?
      && var k := s.submitters[e].t;
         t == Goes(s.(sent := s.sent[k.hash := k]), e, Sent(k))
    case Include(hash) => hash in s.sent && hash !in s.refused && t == s.(landed := s.landed + {hash})
    case Hear(e, answer) =>
      e in s.submitters && s.submitters[e].Sent? && Heard(s, e, s.submitters[e].t, answer, t)
    case ReleaseGrant(e) =>
      && e in s.submitters && s.submitters[e].NoEffect?
      && var k := s.submitters[e].t;
         t == Goes(s.(grants := Without(s.grants, k.org, k.address)), e, Done)
    case Stop(e) => e in s.submitters && t == Goes(s, e, Done)
  }

  /** A run: the worlds passed through, one more than the steps. */
  ghost predicate IsRun(members: Members, steps: seq<Step>, worlds: seq<World>) {
    && |worlds| == |steps| + 1
    && forall i :: 0 <= i < |steps| ==> Next(members, worlds[i], steps[i], worlds[i + 1])
  }

  function Empty(now: int): World {
    World(map[], map[], map[], now, map[], {}, {})
  }

  // ----- what every step keeps -----

  predicate Holding(x: Submitter) {
    !x.Done?
  }

  predicate HasGrant(x: Submitter) {
    x.Granted? || x.Signed? || x.Sent? || x.NoEffect?
  }

  /** A submitter's claim is on its row. */
  predicate ClaimHeld(s: World, x: Submitter) {
    Holding(x) ==>
      && x.t.hash in s.pending && s.pending[x.t.hash] == Row(x.t.org, x.t.owner, x.t.address, s.pending[x.t.hash].expires, true)
      && (x.t.hash in s.sent ==> x.Sent? || x.NoEffect?)
      && (x.Sent? || x.NoEffect? ==> x.t.hash in s.sent && s.sent[x.t.hash] == x.t)
      && (x.NoEffect? ==> x.t.hash in s.refused)
      && (x.Sent? ==> x.t.hash !in s.refused)
  }

  ghost predicate OneEach(s: World) {
    forall d, e | d in s.submitters && e in s.submitters && Holding(s.submitters[d]) && Holding(s.submitters[e]) ::
      s.submitters[d].t.hash == s.submitters[e].t.hash ==> d == e
  }

  ghost predicate Claims(s: World) {
    && OneOutstanding(s.pending)
    && OneEach(s)
    && (forall e :: e in s.submitters ==> ClaimHeld(s, s.submitters[e]))
    && (forall h :: h in s.sent ==> h in s.pending && s.pending[h].submitted && s.sent[h].hash == h)
    && (forall h :: h in s.landed || h in s.refused ==> h in s.sent)
    && s.landed !! s.refused
  }

  /** The grant a ticket was signed under is on record, for its member. */
  predicate OnRecord(members: Members, s: World, k: Ticket) {
    var m := members(k.org, k.owner);
    m in s.grants && s.grants[m] == Grant(k.org, k.address, k.hash)
  }

  /** Every grant is where it should be, given which member an address belongs to. */
  ghost predicate Granting(members: Members, whose: Members, s: World) {
    && (forall h :: h in s.pending ==>
                      members(s.pending[h].org, s.pending[h].owner) == whose(s.pending[h].org, s.pending[h].address))
    && (forall m :: m in s.grants ==> whose(s.grants[m].org, s.grants[m].address) == m)
    && (forall e :: e in s.submitters && HasGrant(s.submitters[e]) ==> OnRecord(members, s, s.submitters[e].t))
    && (forall h :: h in s.sent && h !in s.refused ==> OnRecord(members, s, s.sent[h]))
  }

  lemma RecordKeepsRows(before: map<string, Row>, step: Step, after: map<string, Row>)
    requires step.Record? && OneOutstanding(before) && Recorded(before, step, after)
    ensures OneOutstanding(after)
    ensures forall h :: h in before && before[h].submitted ==> h in after && after[h] == before[h]
    ensures forall h :: h in after ==> || (h in before && after[h] == before[h])
                                       || after[h] == Row(step.org, step.owner, step.address, step.expires, false)
  {
    if h :| Outstanding(before, h, step.org, step.owner)
            && after == (if step.hash != h && step.hash in before then before
                         else (before - {h})[step.hash := Row(step.org, step.owner, step.address, step.expires, false)])
    {
      forall g | g in after && !after[g].submitted && after[g].org == step.org && after[g].owner == step.owner
        ensures after == before || g == step.hash
      {
        assert g in before && g != step.hash ==> Outstanding(before, g, step.org, step.owner);
      }
    } else {
      forall g | g in before ensures !Outstanding(before, g, step.org, step.owner) {
      }
    }
  }

  /** An enrollment under a new hash is outstanding, in place of any other its owner had. */
  lemma RecordingReplaces(before: map<string, Row>, step: Step, after: map<string, Row>)
    requires step.Record? && OneOutstanding(before) && Recorded(before, step, after) && step.hash !in before
    ensures step.hash in after && after[step.hash] == Row(step.org, step.owner, step.address, step.expires, false)
    ensures forall h :: Outstanding(after, h, step.org, step.owner) <==> h == step.hash
  {
    RecordKeepsRows(before, step, after);
    hide Recorded;
    assert step.hash in after by {
      RecordedIsThere(before, step, after);
    }
    assert forall h :: Outstanding(after, h, step.org, step.owner) ==> h == step.hash;
  }

  lemma RecordedIsThere(before: map<string, Row>, step: Step, after: map<string, Row>)
    requires step.Record? && Recorded(before, step, after) && step.hash !in before
    ensures step.hash in after && after[step.hash] == Row(step.org, step.owner, step.address, step.expires, false)
  {
  }

  /** Taking or giving back a claim leaves every other row alone. */
  lemma MarkKeepsRows(before: map<string, Row>, hash: string, submitted: bool)
    requires OneOutstanding(before) && hash in before
    requires submitted || !(exists h :: Outstanding(before, h, before[hash].org, before[hash].owner))
    ensures OneOutstanding(before[hash := before[hash].(submitted := submitted)])
  {
    var after := before[hash := before[hash].(submitted := submitted)];
    forall g, h | g in after && h in after && !after[g].submitted && !after[h].submitted
                  && after[g].org == after[h].org && after[g].owner == after[h].owner
      ensures g == h
    {
      assert g != hash ==> Outstanding(before, g, after[g].org, after[g].owner);
      assert h != hash ==> Outstanding(before, h, after[h].org, after[h].owner);
    }
  }

  lemma ClaimsKept(members: Members, s: World, step: Step, t: World)
    requires Claims(s) && Next(members, s, step, t)
    ensures Claims(t)
  {
    if step.Record? {
      RecordKeepsRows(s.pending, step, t.pending);
      hide Recorded, OneOutstanding;
      assert forall e :: e in t.submitters ==> ClaimHeld(s, t.submitters[e]);
    } else if step.Claim? {
      ClaimKept(members, s, step, t);
    } else if step.ReleaseClaim? {
      ReleaseKept(members, s, step, t);
    } else if step.Tick? || step.Include? {
      hide OneOutstanding;
      assert forall e :: e in t.submitters ==> ClaimHeld(s, t.submitters[e]);
    } else if step.Send? {
      SendKept(members, s, step, t);
    } else if step.Hear? {
      HearKept(members, s, step, t);
    } else {
      QuietKept(members, s, step, t);
    }
  }

  /** A step of one submitter with its own envelope disturbs no other's claim. */
  lemma OthersHold(s: World, t: World, e: nat, x: Submitter)
    requires Claims(s) && e in s.submitters
    requires t.pending == s.pending && t.submitters == s.submitters[e := x] && ClaimHeld(t, x)
    requires Holding(x) ==> Holding(s.submitters[e]) && x.t == s.submitters[e].t
    requires forall h | !(Holding(s.submitters[e]) && h == s.submitters[e].t.hash) ::
               (h in t.sent <==> h in s.sent) && (h in s.sent ==> t.sent[h] == s.sent[h]) && (h in t.refused <==> h in s.refused)
    ensures OneEach(t) && forall d :: d in t.submitters ==> ClaimHeld(t, t.submitters[d])
  {
    hide OneOutstanding;
    forall d | d in t.submitters ensures ClaimHeld(t, t.submitters[d]) {
      assert ClaimHeld(s, s.submitters[d]);
    }
  }

  lemma QuietKept(members: Members, s: World, step: Step, t: World)
    requires Claims(s) && Next(members, s, step, t)
    requires step.TakeGrant? || step.Sign? || step.ReleaseGrant? || step.Stop?
    ensures Claims(t)
  {
    hide OneOutstanding, OneEach, Next;
    QuietStep(members, s, step, t);
    assert ClaimHeld(s, s.submitters[step.e]);
    OthersHold(s, t, step.e, t.submitters[step.e]);
  }

  lemma QuietStep(members: Members, s: World, step: Step, t: World)
    requires Next(members, s, step, t)
    requires step.TakeGrant? || step.Sign? || step.ReleaseGrant? || step.Stop?
    ensures t.sent == s.sent && t.refused == s.refused && t.landed == s.landed && t.pending == s.pending
    ensures step.e in s.submitters && step.e in t.submitters && t.submitters == s.submitters[step.e := t.submitters[step.e]]
    ensures var x, y := s.submitters[step.e], t.submitters[step.e];
            Holding(y) ==> Holding(x) && y.t == x.t && !y.Sent? && !y.NoEffect? && !x.Sent? && !x.NoEffect?
  {
    hide Without;
  }

  lemma SendKept(members: Members, s: World, step: Step, t: World)
    requires Claims(s) && step.Send? && Next(members, s, step, t)
    ensures Claims(t)
  {
    assert ClaimHeld(s, s.submitters[step.e]);
    OthersHold(s, t, step.e, t.submitters[step.e]);
    hide OneOutstanding, OneEach, ClaimHeld;
  }

  lemma HearKept(members: Members, s: World, step: Step, t: World)
    requires Claims(s) && step.Hear? && Next(members, s, step, t)
    ensures Claims(t)
  {
    assert ClaimHeld(s, s.submitters[step.e]);
    OthersHold(s, t, step.e, t.submitters[step.e]);
    hide OneOutstanding, OneEach, ClaimHeld;
  }

  lemma ClaimMarks(members: Members, s: World, step: Step, t: World)
    requires step.Claim? && Next(members, s, step, t)
    ensures step.e !in s.submitters
    ensures t == if Claimable(s, step.hash, step.org, step.owner)
                 then Goes(s.(pending := s.pending[step.hash := s.pending[step.hash].(submitted := true)]), step.e,
                           Claimed(Ticket(step.hash, step.org, step.owner, s.pending[step.hash].address)))
                 else Goes(s, step.e, Done)
  {
  }

  lemma ReleaseMarks(members: Members, s: World, step: Step, t: World)
    requires step.ReleaseClaim? && Next(members, s, step, t)
    ensures step.e in s.submitters && s.submitters[step.e].GrantRefused?
    ensures var k := s.submitters[step.e].t;
            || t == Goes(s, step.e, Done)
            || (k.hash in s.pending
                && t == Goes(s.(pending := s.pending[k.hash := s.pending[k.hash].(submitted := false)]), step.e, Done))
  {
    hide Outstanding;
  }

  lemma ClaimKept(members: Members, s: World, step: Step, t: World)
    requires Claims(s) && step.Claim? && Next(members, s, step, t)
    ensures Claims(t)
  {
    hide Next, OneOutstanding, Outstanding, ClaimHeld;
    ClaimMarks(members, s, step, t);
    NothingNew(s, step.hash, step.org, step.owner);
    if Claimable(s, step.hash, step.org, step.owner) {
      NotHeld(s, step.hash);
      MarkKeepsRows(s.pending, step.hash, true);
    }
    ClaimsStayHeld(members, s, step, t);
  }

  lemma ClaimsStayHeld(members: Members, s: World, step: Step, t: World)
    requires Claims(s) && step.Claim? && Next(members, s, step, t)
    ensures forall e :: e in t.submitters ==> ClaimHeld(t, t.submitters[e])
  {
    hide Next, OneOutstanding, OneEach, Outstanding;
    ClaimMarks(members, s, step, t);
    NothingNew(s, step.hash, step.org, step.owner);
    forall e | e in t.submitters ensures ClaimHeld(t, t.submitters[e]) {
      assert e in s.submitters ==> ClaimHeld(s, s.submitters[e]);
    }
  }

  lemma NothingNew(s: World, hash: string, org: int, owner: string)
    requires Claims(s)
    ensures Claimable(s, hash, org, owner) ==>
              hash in s.pending && !s.pending[hash].submitted && s.pending[hash].org == org && s.pending[hash].owner == owner
  {
  }

  lemma ReleaseKept(members: Members, s: World, step: Step, t: World)
    requires Claims(s) && step.ReleaseClaim? && Next(members, s, step, t)
    ensures Claims(t)
  {
    var k := s.submitters[step.e].t;
    assert ClaimHeld(s, s.submitters[step.e]);
    if t.pending != s.pending {
      GivenBack(s, step.e, k);
    } else {
      assert t.submitters == s.submitters[step.e := Done];
      OthersHold(s, t, step.e, Done);
      hide OneOutstanding, OneEach, ClaimHeld;
    }
  }

  /** A claim given back: the row is outstanding again, and nobody else held it. */
  lemma GivenBack(s: World, e: nat, k: Ticket)
    requires Claims(s) && e in s.submitters && s.submitters[e] == GrantRefused(k) && k.hash in s.pending
    requires !(exists h :: Outstanding(s.pending, h, s.pending[k.hash].org, s.pending[k.hash].owner))
    ensures Claims(Goes(s.(pending := s.pending[k.hash := s.pending[k.hash].(submitted := false)]), e, Done))
  {
    var t := Goes(s.(pending := s.pending[k.hash := s.pending[k.hash].(submitted := false)]), e, Done);
    MarkKeepsRows(s.pending, k.hash, false);
    assert ClaimHeld(s, s.submitters[e]);
    hide OneOutstanding, Outstanding;
    forall d | d in t.submitters ensures ClaimHeld(t, t.submitters[d]) {
      assert ClaimHeld(s, s.submitters[d]);
    }
  }

  lemma NotHeld(s: World, hash: string)
    requires Claims(s) && hash in s.pending && !s.pending[hash].submitted
    ensures forall e :: e in s.submitters && Holding(s.submitters[e]) ==> s.submitters[e].t.hash != hash
  {
    forall e | e in s.submitters && Holding(s.submitters[e]) ensures s.submitters[e].t.hash != hash {
      assert ClaimHeld(s, s.submitters[e]);
    }
  }

  lemma TakeGrantKeeps(members: Members, whose: Members, s: World, step: Step, t: World)
    requires Claims(s) && Granting(members, whose, s) && step.TakeGrant? && Next(members, s, step, t)
    ensures Granting(members, whose, t)
  {
    var k := s.submitters[step.e].t;
    assert ClaimHeld(s, s.submitters[step.e]);
    assert t.submitters[step.e] == Granted(k) ==> OnRecord(members, t, k);
    hide Claims, ClaimHeld;
  }

  /** Deleting by org and address takes one member's grant, if the address is one member's. */
  lemma ReleaseGrantKeeps(members: Members, whose: Members, s: World, step: Step, t: World)
    requires Claims(s) && Granting(members, whose, s) && step.ReleaseGrant? && Next(members, s, step, t)
    ensures Granting(members, whose, t)
  {
    var k := s.submitters[step.e].t;
    var m := members(k.org, k.owner);
    assert ClaimHeld(s, s.submitters[step.e]);
    assert OnRecord(members, s, k);
    assert forall n :: n in s.grants && n != m ==> n in t.grants && t.grants[n] == s.grants[n];
    hide Without;
    forall d | d in t.submitters && HasGrant(t.submitters[d]) ensures OnRecord(members, t, t.submitters[d].t) {
      assert OnRecord(members, s, s.submitters[d].t);
    }
    forall h | h in t.sent && h !in t.refused ensures OnRecord(members, t, t.sent[h]) {
      assert OnRecord(members, s, s.sent[h]);
    }
  }

  /** Where the grants are as they were, it is enough that nothing new relies on one. */
  lemma SameGrants(members: Members, whose: Members, s: World, t: World)
    requires Granting(members, whose, s) && t.grants == s.grants
    requires forall h :: h in t.pending ==>
                           members(t.pending[h].org, t.pending[h].owner) == whose(t.pending[h].org, t.pending[h].address)
    requires forall e :: e in t.submitters && HasGrant(t.submitters[e]) ==>
                           e in s.submitters && HasGrant(s.submitters[e]) && t.submitters[e].t == s.submitters[e].t
    requires forall h :: h in t.sent && h !in t.refused ==>
                           || (h in s.sent && h !in s.refused && t.sent[h] == s.sent[h])
                           || OnRecord(members, s, t.sent[h])
    ensures Granting(members, whose, t)
  {
    forall e | e in t.submitters && HasGrant(t.submitters[e]) ensures OnRecord(members, t, t.submitters[e].t) {
      assert OnRecord(members, s, s.submitters[e].t);
    }
    forall h | h in t.sent && h !in t.refused ensures OnRecord(members, t, t.sent[h]) {
      assert h in s.sent && h !in s.refused ==> OnRecord(members, s, s.sent[h]);
    }
  }

  lemma RecordKept(members: Members, whose: Members, s: World, step: Step, t: World)
    requires Claims(s) && Granting(members, whose, s) && step.Record? && Next(members, s, step, t)
    requires members(step.org, step.owner) == whose(step.org, step.address)
    ensures Granting(members, whose, t)
  {
    RecordKeepsRows(s.pending, step, t.pending);
    hide Claims, Recorded, OnRecord;
    SameGrants(members, whose, s, t);
  }

  lemma MarkKept(members: Members, whose: Members, s: World, step: Step, t: World)
    requires Granting(members, whose, s) && (step.Claim? || step.ReleaseClaim?) && Next(members, s, step, t)
    ensures Granting(members, whose, t)
  {
    hide OnRecord, Granting, Next, Claimable;
    if step.Claim? {
      ClaimMarks(members, s, step, t);
      if Claimable(s, step.hash, step.org, step.owner) {
        ClaimableIsThere(s, step.hash, step.org, step.owner);
      }
    } else {
      ReleaseMarks(members, s, step, t);
    }
    Marked(members, whose, s, step.e, t.submitters[step.e], t);
  }

  lemma ClaimableIsThere(s: World, hash: string, org: int, owner: string)
    requires Claimable(s, hash, org, owner)
    ensures hash in s.pending
  {
  }

  lemma Marked(members: Members, whose: Members, s: World, e: nat, x: Submitter, t: World)
    requires Granting(members, whose, s) && !HasGrant(x)
    requires t == s.(pending := t.pending, submitters := s.submitters[e := x])
    requires forall h :: h in t.pending ==> h in s.pending && t.pending[h].(submitted := s.pending[h].submitted) == s.pending[h]
    ensures Granting(members, whose, t)
  {
    hide OnRecord;
    SameGrants(members, whose, s, t);
  }

  lemma OthersKept(members: Members, whose: Members, s: World, step: Step, t: World)
    requires Granting(members, whose, s) && Next(members, s, step, t)
    requires step.Tick? || step.Sign? || step.Send? || step.Include? || step.Hear? || step.Stop?
    ensures Granting(members, whose, t)
  {
    hide OnRecord;
    assert step.Send? ==> OnRecord(members, s, s.submitters[step.e].t);
    assert t.pending == s.pending && t.grants == s.grants;
    SameGrants(members, whose, s, t);
  }

  lemma GrantingKept(members: Members, whose: Members, s: World, step: Step, t: World)
    requires Claims(s) && Granting(members, whose, s) && Next(members, s, step, t)
    requires step.Record? ==> members(step.org, step.owner) == whose(step.org, step.address)
    ensures Granting(members, whose, t)
  {
    if step.TakeGrant? {
      TakeGrantKeeps(members, whose, s, step, t);
    } else if step.ReleaseGrant? {
      ReleaseGrantKeeps(members, whose, s, step, t);
    } else if step.Record? {
      RecordKept(members, whose, s, step, t);
    } else if step.Claim? || step.ReleaseClaim? {
      MarkKept(members, whose, s, step, t);
    } else {
      OthersKept(members, whose, s, step, t);
    }
  }

  // ----- over whole runs -----

  lemma {:induction false} EveryRunKeepsClaims(members: Members, steps: seq<Step>, worlds: seq<World>, now: int)
    requires IsRun(members, steps, worlds) && worlds[0] == Empty(now)
    ensures Claims(worlds[|steps|])
  {
    hide Claims, Next;
    if steps == [] {
      EmptyIsSound(members, members, now);
    } else {
      var n := |steps| - 1;
      EveryRunKeepsClaims(members, steps[..n], worlds[..n + 1], now);
      assert worlds[..n + 1][n] == worlds[n];
      ClaimsKept(members, worlds[n], steps[n], worlds[n + 1]);
    }
  }

  lemma EmptyIsSound(members: Members, whose: Members, now: int)
    ensures Claims(Empty(now)) && Granting(members, whose, Empty(now))
  {
  }

  /** No two members of an org ask for the same address. */
  ghost predicate Undisputed(members: Members, steps: seq<Step>) {
    forall i, j | 0 <= i < |steps| && 0 <= j < |steps| && steps[i].Record? && steps[j].Record? ::
      steps[i].org == steps[j].org && steps[i].address == steps[j].address ==>
        members(steps[i].org, steps[i].owner) == members(steps[j].org, steps[j].owner)
  }

  ghost predicate AsksFor(steps: seq<Step>, i: nat, org: int, address: string) {
    i < |steps| && steps[i].Record? && steps[i].org == org && steps[i].address == address
  }

  ghost function Asker(members: Members, steps: seq<Step>, org: int, address: string): int {
    if i: nat :| AsksFor(steps, i, org, address) then members(org, steps[i].owner) else 0
  }

  ghost predicate Follows(members: Members, whose: Members, steps: seq<Step>) {
    forall i | 0 <= i < |steps| && steps[i].Record? ::
      members(steps[i].org, steps[i].owner) == whose(steps[i].org, steps[i].address)
  }

  lemma {:induction false} EveryRunKeepsGrants(members: Members, whose: Members, steps: seq<Step>, worlds: seq<World>, now: int)
    requires IsRun(members, steps, worlds) && worlds[0] == Empty(now) && Follows(members, whose, steps)
    ensures Granting(members, whose, worlds[|steps|])
  {
    hide Claims, Granting, Next;
    if steps == [] {
      EmptyIsSound(members, whose, now);
    } else {
      var n := |steps| - 1;
      EveryRunKeepsGrants(members, whose, steps[..n], worlds[..n + 1], now);
      EveryRunKeepsClaims(members, steps[..n], worlds[..n + 1], now);
      assert worlds[..n + 1][n] == worlds[n];
      GrantingKept(members, whose, worlds[n], steps[n], worlds[n + 1]);
    }
  }

  /** In every run, through all retries, refusals and releases, an owner never has two
      enrollments outstanding, and no envelope is in the hands of two submitters. */
  lemma OneEnrollmentOutstanding(members: Members, steps: seq<Step>, worlds: seq<World>, now: int)
    requires IsRun(members, steps, worlds) && worlds[0] == Empty(now)
    ensures OneOutstanding(worlds[|steps|].pending) && OneEach(worlds[|steps|])
  {
    EveryRunKeepsClaims(members, steps, worlds, now);
    hide OneOutstanding, OneEach;
  }

  /**
   In every run in which no two members of an org ask for the same address, the operator
   signs only what has a grant on record, and every account that was created still has its.
   */
  lemma GrantsCoverSpending(members: Members, steps: seq<Step>, worlds: seq<World>, now: int)
    requires IsRun(members, steps, worlds) && worlds[0] == Empty(now) && Undisputed(members, steps)
    ensures var s := worlds[|steps|];
            && (forall e :: e in s.submitters && s.submitters[e].Granted? ==> OnRecord(members, s, s.submitters[e].t))
            && (forall h :: h in s.landed ==> h in s.sent && OnRecord(members, s, s.sent[h]))
  {
    var whose := (org, address) => Asker(members, steps, org, address);
    forall i | 0 <= i < |steps| && steps[i].Record?
      ensures members(steps[i].org, steps[i].owner) == whose(steps[i].org, steps[i].address)
    {
      assert AsksFor(steps, i, steps[i].org, steps[i].address);
    }
    EveryRunKeepsGrants(members, whose, steps, worlds, now);
    EveryRunKeepsClaims(members, steps, worlds, now);
    hide Asker, Undisputed, IsRun, OneOutstanding, OneEach, ClaimHeld, OnRecord;
  }

  /** And each member has at most one account made for them. */
  lemma OneAccountEach(members: Members, steps: seq<Step>, worlds: seq<World>, now: int, g: string, h: string)
    requires IsRun(members, steps, worlds) && worlds[0] == Empty(now) && Undisputed(members, steps)
    requires var s := worlds[|steps|];
             && g in s.landed && h in s.landed && g in s.sent && h in s.sent
             && members(s.sent[g].org, s.sent[g].owner) == members(s.sent[h].org, s.sent[h].owner)
    ensures g == h
  {
    GrantsCoverSpending(members, steps, worlds, now);
    EveryRunKeepsClaims(members, steps, worlds, now);
    hide Undisputed, IsRun, OneOutstanding, OneEach, ClaimHeld;
  }

  // ----- what is given back -----

  /** In every run, a claim whose grant was refused is given back: the enrollment is outstanding
      again, unless its owner has another outstanding by then, and nothing else changes. */
  lemma RefusedClaimComesBack(
      members: Members, steps: seq<Step>, worlds: seq<World>, now: int, e: nat, t: World)
    requires IsRun(members, steps, worlds) && worlds[0] == Empty(now)
    requires var s := worlds[|steps|];
             e in s.submitters && s.submitters[e].GrantRefused? && Next(members, s, ReleaseClaim(e), t)
    ensures var s := worlds[|steps|];
            var k := s.submitters[e].t;
            && k.hash in s.pending && k.hash in t.pending
            && (Outstanding(t.pending, k.hash, k.org, k.owner) <==>
                  forall h :: !Outstanding(s.pending, h, k.org, k.owner))
            && t.grants == s.grants && t.sent == s.sent
            && forall h :: h != k.hash ==>
                 (h in t.pending <==> h in s.pending) && (h in s.pending ==> t.pending[h] == s.pending[h])
  {
    EveryRunKeepsClaims(members, steps, worlds, now);
    var s := worlds[|steps|];
    assert ClaimHeld(s, s.submitters[e]);
    hide IsRun, OneOutstanding, OneEach, ClaimHeld;
  }

  /** A claim passes exactly when the enrollment is its org's and owner's, unclaimed and not
      expired, and then holds the address recorded for it. */
  lemma RightfulClaimPasses(members: Members, s: World, e: nat, hash: string, org: int, owner: string, t: World)
    requires e !in s.submitters && Next(members, s, Claim(e, hash, org, owner), t)
    ensures e in t.submitters
    ensures t.submitters[e].Claimed? <==>
            && hash in s.pending && s.pending[hash].org == org && s.pending[hash].owner == owner
            && !s.pending[hash].submitted && s.now < s.pending[hash].expires
    ensures t.submitters[e].Claimed? ==>
              && t.submitters[e].t == Ticket(hash, org, owner, s.pending[hash].address)
              && t.pending == s.pending[hash := s.pending[hash].(submitted := true)]
    ensures !t.submitters[e].Claimed? ==> t.pending == s.pending
  {
  }

  /** A grant is given exactly when the member has none, and then it is theirs, for this
      enrollment; the claim is otherwise on its way back. */
  lemma GrantOncePerMember(members: Members, s: World, e: nat, t: World)
    requires e in s.submitters && s.submitters[e].Claimed? && Next(members, s, TakeGrant(e, true), t)
    ensures var k := s.submitters[e].t;
            var m := members(k.org, k.owner);
            && (m !in s.grants ==> t.submitters[e] == Granted(k) && t.grants == s.grants[m := Grant(k.org, k.address, k.hash)])
            && (m in s.grants ==> t.submitters[e] == GrantRefused(k) && t.grants == s.grants)
  {
  }

  /** Where an enrollment had no effect the grant under its address is given back, and the
      others stay. */
  lemma NoEffectGivesGrantBack(members: Members, s: World, e: nat, t: World)
    requires e in s.submitters && s.submitters[e].NoEffect? && Next(members, s, ReleaseGrant(e), t)
    ensures var k := s.submitters[e].t;
            forall m :: m in t.grants <==> m in s.grants && (s.grants[m].org != k.org || s.grants[m].address != k.address)
    ensures forall m :: m in t.grants ==> t.grants[m] == s.grants[m]
  {
  }

  // ----- an address two members ask for -----

  lemma Extend(members: Members, steps: seq<Step>, worlds: seq<World>, step: Step, next: World)
    requires IsRun(members, steps, worlds) && Next(members, worlds[|steps|], step, next)
    ensures IsRun(members, steps + [step], worlds + [next])
  {
    hide Next;
    var ss, ws := steps + [step], worlds + [next];
    forall i | 0 <= i < |ss| ensures Next(members, ws[i], ss[i], ws[i + 1]) {
      assert i < |steps| ==> Next(members, worlds[i], steps[i], worlds[i + 1]);
    }
  }

  lemma RecordNew(members: Members, s: World, hash: string, org: int, owner: string, address: string, expires: int)
    requires hash !in s.pending && forall h :: !Outstanding(s.pending, h, org, owner)
    ensures Next(members, s, Record(hash, org, owner, address, expires),
                 s.(pending := s.pending[hash := Row(org, owner, address, expires, false)]))
  {
  }

  /** One owner, all the way to having been sent, by a submitter of their own. */
  lemma Submits(members: Members, steps: seq<Step>, worlds: seq<World>, e: nat, k: Ticket, expires: int)
      returns (ss: seq<Step>, ws: seq<World>)
    requires IsRun(members, steps, worlds)
    requires var s := worlds[|steps|];
             && k.hash !in s.pending && (forall h :: !Outstanding(s.pending, h, k.org, k.owner)) && e !in s.submitters
             && members(k.org, k.owner) !in s.grants && s.now < expires
    ensures IsRun(members, ss, ws) && ws[0] == worlds[0]
    ensures ws[|ss|] == SentBy(members, worlds[|steps|], e, k, expires)
  {
    var s := worlds[|steps|];
    var m := members(k.org, k.owner);
    var s1 := s.(pending := s.pending[k.hash := Row(k.org, k.owner, k.address, expires, false)]);
    RecordNew(members, s, k.hash, k.org, k.owner, k.address, expires);
    var s2 := Goes(s1.(pending := s.pending[k.hash := Row(k.org, k.owner, k.address, expires, true)]), e, Claimed(k));
    assert Next(members, s1, Claim(e, k.hash, k.org, k.owner), s2) by {
      assert Claimable(s1, k.hash, k.org, k.owner);
      assert s1.pending[k.hash := s1.pending[k.hash].(submitted := true)] == s2.pending;
    }
    var s3 := Goes(s2.(grants := s.grants[m := Grant(k.org, k.address, k.hash)]), e, Granted(k));
    assert Next(members, s2, TakeGrant(e, true), s3);
    var s4 := Goes(s3, e, Signed(k));
    assert Next(members, s3, Sign(e), s4);
    var s5 := Goes(s4.(sent := s.sent[k.hash := k]), e, Sent(k));
    assert Next(members, s4, Send(e), s5);
    assert s5.submitters == s.submitters[e := Sent(k)];
    hide Next, IsRun;
    Extend(members, steps, worlds, Record(k.hash, k.org, k.owner, k.address, expires), s1);
    ss, ws := steps + [Record(k.hash, k.org, k.owner, k.address, expires)], worlds + [s1];
    Extend(members, ss, ws, Claim(e, k.hash, k.org, k.owner), s2);
    ss, ws := ss + [Claim(e, k.hash, k.org, k.owner)], ws + [s2];
    Extend(members, ss, ws, TakeGrant(e, true), s3);
    ss, ws := ss + [TakeGrant(e, true)], ws + [s3];
    Extend(members, ss, ws, Sign(e), s4);
    ss, ws := ss + [Sign(e)], ws + [s4];
    Extend(members, ss, ws, Send(e), s5);
    ss, ws := ss + [Send(e)], ws + [s5];
  }

  ghost function SentBy(members: Members, s: World, e: nat, k: Ticket, expires: int): World {
    s.(pending := s.pending[k.hash := Row(k.org, k.owner, k.address, expires, true)],
       grants := s.grants[members(k.org, k.owner) := Grant(k.org, k.address, k.hash)],
       submitters := s.submitters[e := Sent(k)],
       sent := s.sent[k.hash := k])
  }

  /** Whenever two members of an org may ask for one address, an account can be created whose
      grant is then deleted: the other's enrollment has no effect, and releasing its grant by
      org and address releases both. */
  lemma SharedAddressLosesGrant(members: Members, a: Ticket, b: Ticket, now: int, expires: int)
      returns (steps: seq<Step>, worlds: seq<World>)
    requires a.org == b.org && a.address == b.address && members(a.org, a.owner) != members(b.org, b.owner)
    requires a.hash != b.hash && now < expires
    ensures IsRun(members, steps, worlds) && worlds[0] == Empty(now)
    ensures a.hash in worlds[|steps|].landed && members(a.org, a.owner) !in worlds[|steps|].grants
  {
    steps, worlds := [], [Empty(now)];
    steps, worlds := Submits(members, steps, worlds, 0, a, expires);
    steps, worlds := Submits(members, steps, worlds, 1, b, expires);
    var s := worlds[|steps|];
    assert s.submitters[1] == Sent(b);
    var s1 := s.(landed := s.landed + {a.hash});
    assert Next(members, s, Include(a.hash), s1);
    var s2 := Goes(s1.(refused := s1.refused + {b.hash}), 1, NoEffect(b));
    assert Next(members, s1, Hear(1, HadNoEffect), s2);
    var s3 := Goes(s2.(grants := Without(s2.grants, b.org, b.address)), 1, Done);
    assert Next(members, s2, ReleaseGrant(1), s3);
    hide Next, IsRun;
    Extend(members, steps, worlds, Include(a.hash), s1);
    steps, worlds := steps + [Include(a.hash)], worlds + [s1];
    Extend(members, steps, worlds, Hear(1, HadNoEffect), s2);
    steps, worlds := steps + [Hear(1, HadNoEffect)], worlds + [s2];
    Extend(members, steps, worlds, ReleaseGrant(1), s3);
    steps, worlds := steps + [ReleaseGrant(1)], worlds + [s3];
  }
}
