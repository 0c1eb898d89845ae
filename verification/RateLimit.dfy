/**
 A fixed-window rate limiter that sweeps expired windows, against one that keeps a single
 window for a single key and never sweeps.

 Times are whole nanoseconds on one clock.
 */
module RateLimit {
  import opened Common

  const HOUR := 3_600_000_000_000

  datatype Key = Key(org: int, connector: string)

  datatype Window = Window(start: int, count: int)

  datatype Call = Call(key: Key, perHour: int, now: int)

  type Windows = map<Key, Window>

  predicate Expired(w: Window, now: int) {
    now - w.start >= HOUR
  }

  // ----- the limiter -----

  function Live(ws: Windows, now: int): Windows {
    map k | k in ws && !Expired(ws[k], now) :: ws[k]
  }

  /** One call: the windows it leaves and the answer it gets. */
  function Step(ws: Windows, c: Call): (Windows, bool) {
    if c.perHour <= 0 then (ws, false)
    else if c.key !in ws || Expired(ws[c.key], c.now) then (Live(ws[c.key := Window(c.now, 1)], c.now), true)
    else if ws[c.key].count >= c.perHour then (ws, false)
    else (ws[c.key := ws[c.key].(count := ws[c.key].count + 1)], true)
  }

  function After(calls: seq<Call>): Windows {
    if calls == [] then map[] else Step(After(calls[..|calls| - 1]), calls[|calls| - 1]).0
  }

  /** The answer to the last of these calls. */
  function Answer(calls: seq<Call>): bool
    requires calls != []
  {
    Step(After(calls[..|calls| - 1]), calls[|calls| - 1]).1
  }

  class RateLimiter {
    var windows: Windows
    ghost var history: seq<Call>

    ghost predicate Valid()
      reads this
    {
      windows == After(history)
    }

    constructor ()
      ensures Valid() && history == []
    {
      windows := map[];
      history := [];
    }

    method Allow(org: int, connector: string, perHour: int, now: int) returns (ok: bool)
      requires Valid()
      modifies this
      ensures Valid() && history == old(history) + [Call(Key(org, connector), perHour, now)]
      ensures ok == Answer(history)
    {
      var key := Key(org, connector);
      history := history + [Call(key, perHour, now)];
      assert history[..|history| - 1] == old(history);
      if perHour <= 0 {
        return false;
      }
      if key !in windows || now - windows[key].start >= HOUR {
        windows := windows[key := Window(now, 1)];
        Sweep(now);
        return true;
      }
      if windows[key].count >= perHour {
        return false;
      }
      windows := windows[key := windows[key].(count := windows[key].count + 1)];
      return true;
    }

    method Sweep(now: int)
      modifies this`windows
      ensures windows == Live(old(windows), now)
    {
      var left := windows.Keys;
      while left != {}
        invariant left <= old(windows).Keys
        invariant windows == map k | k in old(windows) && (k in left || !Expired(old(windows)[k], now)) :: old(windows)[k]
        decreases left
      {
        var key :| key in left;
        if now - windows[key].start >= HOUR {
          windows := windows - {key};
        }
        left := left - {key};
      }
    }
  }

  // ----- one key, never swept -----

  predicate Opens(w: Option<Window>, now: int) {
    w.None? || Expired(w.value, now)
  }

  /** The window of one key after these calls, counting only that key's calls. */
  function Lone(calls: seq<Call>, k: Key): Option<Window> {
    if calls == [] then None else
      var w, c := Lone(calls[..|calls| - 1], k), calls[|calls| - 1];
      if c.key != k || c.perHour <= 0 then w
      else if Opens(w, c.now) then Some(Window(c.now, 1))
      else if w.value.count >= c.perHour then w
      else Some(w.value.(count := w.value.count + 1))
  }

  function LoneAnswer(calls: seq<Call>): bool
    requires calls != []
  {
    var c := calls[|calls| - 1];
    var w := Lone(calls[..|calls| - 1], c.key);
    c.perHour > 0 && (Opens(w, c.now) || w.value.count < c.perHour)
  }

  /** The clock never runs backwards. */
  predicate Monotone(calls: seq<Call>) {
    forall i, j :: 0 <= i < j < |calls| ==> calls[i].now <= calls[j].now
  }

  /** A stored window is the key's window, and a missing one has expired. */
  ghost predicate Agrees(ws: Windows, calls: seq<Call>, now: int) {
    forall k :: if k in ws then Lone(calls, k) == Some(ws[k]) else Opens(Lone(calls, k), now)
  }

  lemma StepAgrees(ws: Windows, calls: seq<Call>, c: Call)
    requires Agrees(ws, calls, c.now)
    ensures Agrees(Step(ws, c).0, calls + [c], c.now)
  {
    var all := calls + [c];
    assert all[..|all| - 1] == calls;
    var next := Step(ws, c).0;
    forall k ensures if k in next then Lone(all, k) == Some(next[k]) else Opens(Lone(all, k), c.now) {
      assert if k in ws then Lone(calls, k) == Some(ws[k]) else Opens(Lone(calls, k), c.now);
    }
  }

  lemma AgreesLater(ws: Windows, calls: seq<Call>, now: int, later: int)
    requires Agrees(ws, calls, now) && now <= later
    ensures Agrees(ws, calls, later)
  {
    forall k ensures if k in ws then Lone(calls, k) == Some(ws[k]) else Opens(Lone(calls, k), later) {
      assert if k in ws then Lone(calls, k) == Some(ws[k]) else Opens(Lone(calls, k), now);
    }
  }

  lemma {:induction false} AfterAgrees(calls: seq<Call>, now: int)
    requires Monotone(calls) && (calls != [] ==> calls[|calls| - 1].now <= now)
    ensures Agrees(After(calls), calls, now)
  {
    if calls != [] {
      var init, c := calls[..|calls| - 1], calls[|calls| - 1];
      assert init + [c] == calls;
      AfterAgrees(init, c.now);
      StepAgrees(After(init), init, c);
      AgreesLater(After(calls), calls, c.now, now);
    }
  }

  /** Sweeping is never seen: over every run, whatever the limits, each call is answered as
      by a limiter that never sweeps and has only ever been called with this key. */
  lemma SweepingIsInvisible(calls: seq<Call>)
    requires Monotone(calls) && calls != []
    ensures Answer(calls) == LoneAnswer(calls)
  {
    var init, c := calls[..|calls| - 1], calls[|calls| - 1];
    AfterAgrees(init, c.now);
    assert if c.key in After(init) then Lone(init, c.key) == Some(After(init)[c.key]) else Opens(Lone(init, c.key), c.now);
  }

  function Only(calls: seq<Call>, k: Key): seq<Call> {
    if calls == [] then [] else
      Only(calls[..|calls| - 1], k) + if calls[|calls| - 1].key == k then [calls[|calls| - 1]] else []
  }

  lemma {:induction false} OnlyKeepsLone(calls: seq<Call>, k: Key)
    ensures Lone(Only(calls, k), k) == Lone(calls, k)
  {
    if calls != [] {
      var init, c := calls[..|calls| - 1], calls[|calls| - 1];
      OnlyKeepsLone(init, k);
      if c.key == k {
        var only := Only(init, k);
        assert (only + [c])[..|only|] == only;
      } else {
        assert Only(init, k) + [] == Only(init, k);
      }
    }
  }

  lemma {:induction false} OnlyIsMonotone(calls: seq<Call>, k: Key)
    requires Monotone(calls)
    ensures Monotone(Only(calls, k))
    ensures forall c :: c in Only(calls, k) ==> c.now <= calls[|calls| - 1].now && c in calls
  {
    if calls != [] {
      OnlyIsMonotone(calls[..|calls| - 1], k);
    }
  }

  lemma {:induction false} OnlyTells(calls: seq<Call>, k: Key)
    ensures forall c :: c in Only(calls, k) <==> c in calls && c.key == k
  {
    if calls != [] {
      OnlyTells(calls[..|calls| - 1], k);
      assert calls == calls[..|calls| - 1] + [calls[|calls| - 1]];
    }
  }

  /** Keys never affect each other: the other keys' calls may be left out of a run. */
  lemma KeysAreIndependent(calls: seq<Call>)
    requires Monotone(calls) && calls != []
    ensures var own := Only(calls, calls[|calls| - 1].key);
            && own != [] && Monotone(own) && Answer(calls) == Answer(own)
            && forall c :: c in own <==> c in calls && c.key == calls[|calls| - 1].key
  {
    OnlyTells(calls, calls[|calls| - 1].key);
    var init, c := calls[..|calls| - 1], calls[|calls| - 1];
    var own := Only(init, c.key);
    assert Only(calls, c.key) == own + [c];
    assert (own + [c])[..|own|] == own;
    OnlyKeepsLone(init, c.key);
    OnlyIsMonotone(calls, c.key);
    SweepingIsInvisible(calls);
    SweepingIsInvisible(own + [c]);
  }

  // ----- how much gets through -----

  predicate Within(c: Call, k: Key, t: int) {
    c.key == k && t <= c.now < t + HOUR
  }

  /** Calls with this key that were allowed in the hour from t. */
  function Allowed(calls: seq<Call>, k: Key, t: int): nat {
    if calls == [] then 0 else
      Allowed(calls[..|calls| - 1], k, t) + if Within(calls[|calls| - 1], k, t) && Answer(calls) then 1 else 0
  }

  ghost predicate FixedLimit(calls: seq<Call>, k: Key, limit: int) {
    forall i :: 0 <= i < |calls| && calls[i].key == k ==> calls[i].perHour == limit
  }

  /** What the current window says about the calls let through in the hour from t. */
  ghost predicate Bounded(w: Option<Window>, allowed: nat, limit: int, t: int, now: int) {
    && (now < t ==> allowed == 0)
    && (w.None? ==> allowed == 0)
    && (w.Some? ==>
          && w.value.start <= now
          && 1 <= w.value.count <= limit
          && allowed <= if w.value.start < t then w.value.count - 1
                        else if w.value.start < t + HOUR then limit - 1 + w.value.count
                        else 2 * limit - 1)
  }

  lemma {:induction false} RunIsBounded(calls: seq<Call>, k: Key, limit: int, t: int, now: int)
    requires Monotone(calls) && FixedLimit(calls, k, limit) && limit >= 1
    requires calls != [] ==> calls[|calls| - 1].now <= now
    ensures Bounded(Lone(calls, k), Allowed(calls, k, t), limit, t, now)
  {
    if calls != [] {
      var init, c := calls[..|calls| - 1], calls[|calls| - 1];
      RunIsBounded(init, k, limit, t, c.now);
      SweepingIsInvisible(calls);
    }
  }

  /** Over every run, no key gets more than twice its limit less one through in an hour. */
  lemma HourlyBound(calls: seq<Call>, k: Key, limit: int, t: int)
    requires Monotone(calls) && FixedLimit(calls, k, limit) && limit >= 1
    ensures Allowed(calls, k, t) <= 2 * limit - 1
  {
    RunIsBounded(calls, k, limit, t, if calls == [] then 0 else calls[|calls| - 1].now);
  }

  // ----- and no smaller bound holds -----

  function Repeat(c: Call, n: nat): (calls: seq<Call>)
    ensures |calls| == n && forall i :: 0 <= i < n ==> calls[i] == c
  {
    seq(n, i => c)
  }

  /** One call, the rest of the allowance at the end of the hour, and a fresh one after it. */
  function Worst(k: Key, limit: nat): seq<Call>
    requires limit >= 1
  {
    [Call(k, limit, 0)] + Repeat(Call(k, limit, HOUR - 1), limit - 1) + Repeat(Call(k, limit, HOUR), limit)
  }

  /** The same count, by the answers of the limiter that never sweeps. */
  function LoneAllowed(calls: seq<Call>, k: Key, t: int): nat {
    if calls == [] then 0 else
      LoneAllowed(calls[..|calls| - 1], k, t) + if Within(calls[|calls| - 1], k, t) && LoneAnswer(calls) then 1 else 0
  }

  lemma {:induction false} SameCount(calls: seq<Call>, k: Key, t: int)
    requires Monotone(calls)
    ensures Allowed(calls, k, t) == LoneAllowed(calls, k, t)
  {
    if calls != [] {
      SameCount(calls[..|calls| - 1], k, t);
      SweepingIsInvisible(calls);
    }
  }

  lemma OneMore(calls: seq<Call>, c: Call, t: int)
    requires c.perHour > 0
    ensures var w := Lone(calls, c.key);
            && (Opens(w, c.now) ==> Lone(calls + [c], c.key) == Some(Window(c.now, 1)))
            && (!Opens(w, c.now) && w.value.count < c.perHour ==>
                  Lone(calls + [c], c.key) == Some(Window(w.value.start, w.value.count + 1)))
            && (Opens(w, c.now) || w.value.count < c.perHour ==>
                  LoneAllowed(calls + [c], c.key, t) == LoneAllowed(calls, c.key, t) + if Within(c, c.key, t) then 1 else 0)
  {
    assert (calls + [c])[..|calls|] == calls;
  }

  lemma {:induction false} RepeatsAreAllowed(calls: seq<Call>, c: Call, n: nat, t: int, w: Window)
    requires Lone(calls, c.key) == Some(w) && !Expired(w, c.now) && w.count + n <= c.perHour
    requires c.perHour > 0 && Within(c, c.key, t)
    ensures Lone(calls + Repeat(c, n), c.key) == Some(Window(w.start, w.count + n))
    ensures LoneAllowed(calls + Repeat(c, n), c.key, t) == LoneAllowed(calls, c.key, t) + n
  {
    hide Lone, LoneAllowed;
    if n == 0 {
      assert calls + Repeat(c, n) == calls;
    } else {
      var before := calls + Repeat(c, n - 1);
      assert calls + Repeat(c, n) == before + [c];
      RepeatsAreAllowed(calls, c, n - 1, t, w);
      OneMore(before, c, t);
    }
  }

  lemma WorstIsAllowed(k: Key, limit: nat)
    requires limit >= 1
    ensures LoneAllowed(Worst(k, limit), k, 1) == 2 * limit - 1
  {
    assert Lone([], k) == None && LoneAllowed([], k, 1) == 0;
    hide Lone, LoneAllowed;
    var a, b, c := Call(k, limit, 0), Call(k, limit, HOUR - 1), Call(k, limit, HOUR);
    OneMore([], a, 1);
    assert [] + [a] == [a];
    RepeatsAreAllowed([a], b, limit - 1, 1, Window(0, 1));
    var start := [a] + Repeat(b, limit - 1);
    OneMore(start, c, 1);
    RepeatsAreAllowed(start + [c], c, limit - 1, 1, Window(HOUR, 1));
    assert start + [c] + Repeat(c, limit - 1) == Worst(k, limit);
  }

  /** The bound is reached, for every limit. */
  lemma HourlyBoundIsTight(k: Key, limit: nat)
    requires limit >= 1
    ensures Monotone(Worst(k, limit)) && FixedLimit(Worst(k, limit), k, limit)
    ensures Allowed(Worst(k, limit), k, 1) == 2 * limit - 1
  {
    WorstIsAllowed(k, limit);
    SameCount(Worst(k, limit), k, 1);
  }
}
