/**
 The side condition of `ClientTier.ForgettingIsInvisible` is necessary: when an idle
 bucket may still be filling up as its client is forgotten, some run shows it.

 The run drains one client's bucket as late as `lag` permits, comes back just after
 the sweep may forget the client, and is admitted where the unbounded table refuses.
 It begins at a time `z` chosen such that the first sweep is due when the client can be forgotten.
*/
module ForgettingShows {
  import opened TokenBucket
  import opened RateLimiter
  import opened ClientTier

  /** `evs` is a run that leads the limiter to `s` and the unbounded table to `u`, and is never sent to overflow. */
  ghost predicate Reaches(cfg: Config, lag: real, evs: seq<Event>, s: Tier, u: Unbounded)
    decreases |evs|
  {
    && Tracks(u, s)
    && if evs == [] then s == Start(cfg, 0.0) && u == Unbounded(map[], map[])
       else exists s0, u0 :: ReachesVia(cfg, lag, evs, s0, u0, s, u)
  }

  ghost predicate ReachesVia(cfg: Config, lag: real, evs: seq<Event>, s0: Tier, u0: Unbounded, s: Tier, u: Unbounded)
    requires evs != []
    decreases |evs|, 0
  {
    var n := |evs| - 1;
    && Reaches(cfg, lag, evs[..n], s0, u0) && Enabled(s0, lag, evs[n])
    && s == Step(cfg, s0, evs[n]) && u == UnboundedStep(cfg, u0, evs[n])
  }

  lemma Extend(cfg: Config, lag: real, evs: seq<Event>, s: Tier, u: Unbounded, ev: Event)
    requires Reaches(cfg, lag, evs, s, u) && Enabled(s, lag, ev)
    requires Tracks(UnboundedStep(cfg, u, ev), Step(cfg, s, ev))
    ensures Reaches(cfg, lag, evs + [ev], Step(cfg, s, ev), UnboundedStep(cfg, u, ev))
  {
    var all, n := evs + [ev], |evs|;
    assert all[..n] == evs && all[n] == ev;
    assert ReachesVia(cfg, lag, all, s, u, Step(cfg, s, ev), UnboundedStep(cfg, u, ev));
  }

  lemma {:induction false} ReachesIsRun(cfg: Config, lag: real, evs: seq<Event>, s: Tier, u: Unbounded)
    requires Reaches(cfg, lag, evs, s, u)
    ensures Legal(cfg, 0.0, lag, evs) && NeverFull(cfg, 0.0, evs)
    ensures s == After(cfg, 0.0, evs) && u == UnboundedAfter(cfg, evs)
  {
    if evs != [] {
      var s0, u0 :| ReachesVia(cfg, lag, evs, s0, u0, s, u);
      ReachesIsRun(cfg, lag, evs[..|evs| - 1], s0, u0);
    }
  }

  /** Exactly the requests from `from` up to `to` hold the client's first bucket. */
  ghost predicate Waiting(held: map<nat, Held>, from: nat, to: nat, z: real) {
    && (forall r :: r in held <==> from <= r < to)
    && (forall r | r in held :: held[r] == Held("c", Own(0), z))
  }

  /** `i` requests hold the client's bucket since time `z`. */
  ghost predicate Filled(cfg: Config, s: Tier, i: nat, z: real) {
    && s.now == (if i == 0 then 0.0 else z) && s.nextCleanup == CLEANUP_INTERVAL
    && s.visitors == (if i == 0 then map[] else map["c" := Visitor(0, z)])
    && s.buckets == (if i == 0 then [] else [Full(cfg.rate, cfg.Cap(), z)])
    && Waiting(s.held, 0, i, z) && s.admitted == map[] && s.forever == map[]
  }

  lemma {:induction false} Fill(cfg: Config, lag: real, i: nat, z: real)
    returns (evs: seq<Event>, s: Tier, u: Unbounded)
    requires cfg.Positive() && lag >= 0.0 && 0.0 <= z <= CLEANUP_INTERVAL
    ensures Reaches(cfg, lag, evs, s, u) && Filled(cfg, s, i, z)
  {
    hide *;
    if i == 0 {
      evs, s, u := [], Start(cfg, 0.0), Unbounded(map[], map[]);
      NothingYet(cfg, lag, z);
    } else {
      var evs0, s0, u0 := Fill(cfg, lag, i - 1, z);
      evs, s, u := FillOne(cfg, lag, evs0, s0, u0, i - 1, z);
    }
  }

  lemma NothingYet(cfg: Config, lag: real, z: real)
    ensures Reaches(cfg, lag, [], Start(cfg, 0.0), Unbounded(map[], map[])) && Filled(cfg, Start(cfg, 0.0), 0, z)
  {
  }

  lemma FillOne(cfg: Config, lag: real, evs0: seq<Event>, s0: Tier, u0: Unbounded, i: nat, z: real)
    returns (evs: seq<Event>, s: Tier, u: Unbounded)
    requires cfg.Positive() && lag >= 0.0 && 0.0 <= z <= CLEANUP_INTERVAL
    requires Reaches(cfg, lag, evs0, s0, u0) && Filled(cfg, s0, i, z)
    ensures Reaches(cfg, lag, evs, s, u) && Filled(cfg, s, i + 1, z)
  {
    var ev := Acquire(i, "c", z);
    FillStep(cfg, s0, i, z);
    TracksAcquire(cfg, s0, u0, ev);
    Extend(cfg, lag, evs0, s0, u0, ev);
    evs, s, u := evs0 + [ev], Step(cfg, s0, ev), UnboundedStep(cfg, u0, ev);
  }

  lemma FillStep(cfg: Config, s: Tier, i: nat, z: real)
    requires cfg.Positive() && Filled(cfg, s, i, z) && 0.0 <= z <= CLEANUP_INTERVAL
    ensures Filled(cfg, Step(cfg, s, Acquire(i, "c", z)), i + 1, z)
  {
    assert Sweep(cfg, s.(now := z)) == s.(now := z);
  }

  /** `i` of the `burst` requests have been admitted, at time `z + d`. */
  ghost predicate Drained(cfg: Config, s: Tier, i: nat, z: real, d: real) {
    if i == 0 then Filled(cfg, s, cfg.burst, z)
    else
      var b := Bucket(cfg.rate, cfg.Cap(), cfg.Cap() - i as real, z + d);
      && s.now == z + d && s.nextCleanup == CLEANUP_INTERVAL
      && s.visitors == map["c" := Visitor(0, z)] && s.buckets == [b] && s.forever == map["c" := b]
      && Waiting(s.held, i, cfg.burst, z) && (forall r | r in s.admitted :: r < i)
  }

  lemma {:induction false} Drain(cfg: Config, lag: real, i: nat, z: real, d: real)
    returns (evs: seq<Event>, s: Tier, u: Unbounded)
    requires cfg.Positive() && 0.0 <= d <= lag && i <= cfg.burst && 0.0 <= z <= CLEANUP_INTERVAL
    ensures Reaches(cfg, lag, evs, s, u) && Drained(cfg, s, i, z, d)
  {
    hide *;
    if i == 0 {
      evs, s, u := Fill(cfg, lag, cfg.burst, z);
      NothingDrained(cfg, s, z, d);
    } else {
      var evs0, s0, u0 := Drain(cfg, lag, i - 1, z, d);
      evs, s, u := DrainOne(cfg, lag, evs0, s0, u0, i - 1, z, d);
    }
  }

  lemma NothingDrained(cfg: Config, s: Tier, z: real, d: real)
    requires Filled(cfg, s, cfg.burst, z)
    ensures Drained(cfg, s, 0, z, d)
  {
  }

  lemma DrainOne(cfg: Config, lag: real, evs0: seq<Event>, s0: Tier, u0: Unbounded, i: nat, z: real, d: real)
    returns (evs: seq<Event>, s: Tier, u: Unbounded)
    requires cfg.Positive() && 0.0 <= d <= lag && i < cfg.burst
    requires Reaches(cfg, lag, evs0, s0, u0) && Drained(cfg, s0, i, z, d)
    ensures Reaches(cfg, lag, evs, s, u) && Drained(cfg, s, i + 1, z, d)
  {
    var ev := Decide(i, z + d);
    DrainStep(cfg, s0, i, z, d);
    DrainEnabled(cfg, lag, s0, i, z, d);
    TracksDecide(cfg, s0, u0, ev);
    Extend(cfg, lag, evs0, s0, u0, ev);
    evs, s, u := evs0 + [ev], Step(cfg, s0, ev), UnboundedStep(cfg, u0, ev);
  }

  lemma DrainEnabled(cfg: Config, lag: real, s: Tier, i: nat, z: real, d: real)
    requires 0.0 <= d <= lag && i < cfg.burst && Drained(cfg, s, i, z, d)
    ensures Enabled(s, lag, Decide(i, z + d)) && s.held[i].target.Own? && s.held[i].target.id < |s.buckets|
  {
    assert Waiting(s.held, i, cfg.burst, z);
    assert i in s.held;
  }

  lemma DrainStep(cfg: Config, s: Tier, i: nat, z: real, d: real)
    requires cfg.Positive() && 0.0 <= d && i < cfg.burst && Drained(cfg, s, i, z, d)
    ensures Drained(cfg, Step(cfg, s, Decide(i, z + d)), i + 1, z, d)
  {
    var b := Bucket(cfg.rate, cfg.Cap(), cfg.Cap() - (i + 1) as real, z + d);
    var s' := s.(now := z + d);
    assert s'.held[i] == Held("c", Own(0), z);
    DrainTake(cfg, s, i, z, d);
    assert s'.buckets[0 := b] == [b];
    assert s'.forever["c" := b] == map["c" := b];
  }

  lemma DrainTake(cfg: Config, s: Tier, i: nat, z: real, d: real)
    requires cfg.Positive() && 0.0 <= d && i < cfg.burst && Drained(cfg, s, i, z, d)
    ensures var b := Bucket(cfg.rate, cfg.Cap(), cfg.Cap() - (i + 1) as real, z + d);
            && |s.buckets| == 1 && Admits(s.buckets[0], z + d)
            && Take(s.buckets[0], z + d) == b
            && Take(ForeverOf(cfg, s.forever, "c", z + d), z + d) == b
  {
    GainMono(cfg.rate, 0.0, d);
    assert z + d - z == d;
    assert Gain(cfg.rate, z + d - (z + d)) == 0.0;
  }

  /**
   The client was forgotten and has got `j` requests admitted by its new bucket at time `t`;
   its old bucket had `earned` tokens by then.
  */
  ghost predicate Returned(cfg: Config, s: Tier, j: nat, earned: real, t: real, held: map<nat, Held>) {
    && s.now == t && s.nextCleanup >= t
    && s.visitors == map["c" := Visitor(1, t)] && |s.buckets| == 2
    && s.buckets[1] == Bucket(cfg.rate, cfg.Cap(), cfg.Cap() - j as real, t)
    && "c" in s.forever && At(s.forever["c"], t) == earned - j as real
    && s.forever["c"].rate == cfg.rate && s.forever["c"].cap == cfg.Cap()
    && s.held == held && (forall r | r in s.admitted :: r < cfg.burst + j)
  }

  /** The client's next request holds its new bucket. */
  ghost predicate Asking(cfg: Config, s: Tier, j: nat, earned: real, t: real) {
    Returned(cfg, s, j, earned, t, map[cfg.burst + j := Held("c", Own(1), t)])
  }

  /** Coming back after the sweep: a fresh, full bucket. */
  lemma ComeBack(cfg: Config, s: Tier, z: real, d: real, earned: real, t: real)
    requires cfg.Positive() && Drained(cfg, s, cfg.burst, z, d)
    requires z + cfg.ttl >= CLEANUP_INTERVAL && t > z + cfg.ttl && earned == At(s.forever["c"], t)
    ensures Asking(cfg, Step(cfg, s, Acquire(cfg.burst, "c", t)), 0, earned, t)
  {
    var s1 := Sweep(cfg, s.(now := t));
    assert s1.visitors == map[];
    assert s.held == map[];
    var s2 := Grant(cfg, s1, cfg.burst, "c");
    assert s2.visitors == map["c" := Visitor(1, t)];
    assert s2.buckets == s.buckets + [Full(cfg.rate, cfg.Cap(), t)];
  }

  lemma AskAgain(cfg: Config, s: Tier, j: nat, earned: real, t: real)
    requires cfg.Positive() && Returned(cfg, s, j, earned, t, map[])
    ensures Asking(cfg, Step(cfg, s, Acquire(cfg.burst + j, "c", t)), j, earned, t)
  {
    assert Sweep(cfg, s.(now := t)) == s;
  }

  lemma Admit(cfg: Config, s: Tier, j: nat, earned: real, t: real)
    requires cfg.Positive() && j < cfg.burst
    requires Asking(cfg, s, j, earned, t)
    requires j as real + 1.0 <= earned
    ensures Returned(cfg, Step(cfg, s, Decide(cfg.burst + j, t)), j + 1, earned, t, map[])
  {
    var req := cfg.burst + j;
    assert s.held[req] == Held("c", Own(1), t) && s.(now := t) == s;
    assert s.held - {req} == map[];
    FreshAt(cfg, s.buckets[1], t);
    var b := Take(s.forever["c"], t);
    FreshAt(cfg, b, t);
    assert At(b, t) == earned - (j + 1) as real;
  }

  lemma FreshAt(cfg: Config, b: Bucket, t: real)
    requires b.last == t && b.tokens <= b.cap
    ensures At(b, t) == b.tokens
  {
    assert Gain(b.rate, t - t) == 0.0;
  }

  lemma FirstBack(cfg: Config, lag: real, evs0: seq<Event>, s0: Tier, u0: Unbounded, z: real, d: real, earned: real,
                  t: real)
    returns (evs: seq<Event>, s: Tier, u: Unbounded)
    requires cfg.Positive() && 0.0 <= d && z + d <= t && z + cfg.ttl >= CLEANUP_INTERVAL && t > z + cfg.ttl
    requires Reaches(cfg, lag, evs0, s0, u0) && Drained(cfg, s0, cfg.burst, z, d) && earned == At(s0.forever["c"], t)
    ensures Reaches(cfg, lag, evs, s, u) && Asking(cfg, s, 0, earned, t)
  {
    var ev := Acquire(cfg.burst, "c", t);
    ComeBack(cfg, s0, z, d, earned, t);
    assert s0.held == map[];
    TracksAcquire(cfg, s0, u0, ev);
    Extend(cfg, lag, evs0, s0, u0, ev);
    evs, s, u := evs0 + [ev], Step(cfg, s0, ev), UnboundedStep(cfg, u0, ev);
  }

  /** After `j` admissions the client asks for one more. */
  lemma {:induction false} Rounds(cfg: Config, lag: real, evs0: seq<Event>, s0: Tier, u0: Unbounded, j: nat,
                                  earned: real, t: real)
    returns (evs: seq<Event>, s: Tier, u: Unbounded)
    requires cfg.Positive() && lag >= 0.0 && j < cfg.burst && j as real <= earned
    requires Reaches(cfg, lag, evs0, s0, u0) && Asking(cfg, s0, 0, earned, t)
    ensures Reaches(cfg, lag, evs, s, u) && Asking(cfg, s, j, earned, t)
  {
    hide *;
    if j == 0 {
      evs, s, u := evs0, s0, u0;
    } else {
      var evs1, s1, u1 := Rounds(cfg, lag, evs0, s0, u0, j - 1, earned, t);
      evs, s, u := Round(cfg, lag, evs1, s1, u1, j - 1, earned, t);
    }
  }

  lemma Round(cfg: Config, lag: real, evs0: seq<Event>, s0: Tier, u0: Unbounded, j: nat, earned: real, t: real)
    returns (evs: seq<Event>, s: Tier, u: Unbounded)
    requires cfg.Positive() && lag >= 0.0 && j < cfg.burst && j as real + 1.0 <= earned
    requires Reaches(cfg, lag, evs0, s0, u0) && Asking(cfg, s0, j, earned, t)
    ensures Reaches(cfg, lag, evs, s, u) && Asking(cfg, s, j + 1, earned, t)
  {
    hide *;
    var evs1, s1, u1 := AdmitOne(cfg, lag, evs0, s0, u0, j, earned, t);
    evs, s, u := AskOne(cfg, lag, evs1, s1, u1, j + 1, earned, t);
  }

  lemma AdmitOne(cfg: Config, lag: real, evs0: seq<Event>, s0: Tier, u0: Unbounded, j: nat, earned: real, t: real)
    returns (evs: seq<Event>, s: Tier, u: Unbounded)
    requires cfg.Positive() && lag >= 0.0 && j < cfg.burst && j as real + 1.0 <= earned
    requires Reaches(cfg, lag, evs0, s0, u0) && Asking(cfg, s0, j, earned, t)
    ensures Reaches(cfg, lag, evs, s, u) && Returned(cfg, s, j + 1, earned, t, map[])
  {
    var ev := Decide(cfg.burst + j, t);
    Admit(cfg, s0, j, earned, t);
    assert s0.held[ev.req] == Held("c", Own(1), t);
    TracksDecide(cfg, s0, u0, ev);
    Extend(cfg, lag, evs0, s0, u0, ev);
    evs, s, u := evs0 + [ev], Step(cfg, s0, ev), UnboundedStep(cfg, u0, ev);
  }

  lemma AskOne(cfg: Config, lag: real, evs0: seq<Event>, s0: Tier, u0: Unbounded, j: nat, earned: real, t: real)
    returns (evs: seq<Event>, s: Tier, u: Unbounded)
    requires cfg.Positive() && Reaches(cfg, lag, evs0, s0, u0) && Returned(cfg, s0, j, earned, t, map[])
    ensures Reaches(cfg, lag, evs, s, u) && Asking(cfg, s, j, earned, t)
  {
    var ev := Acquire(cfg.burst + j, "c", t);
    AskAgain(cfg, s0, j, earned, t);
    TracksAcquire(cfg, s0, u0, ev);
    Extend(cfg, lag, evs0, s0, u0, ev);
    evs, s, u := evs0 + [ev], Step(cfg, s0, ev), UnboundedStep(cfg, u0, ev);
  }

  /** How long to stay away: more than the time to live, but such that the bucket drained at `d` is still not full. */
  function ReturnTime(cfg: Config, d: real): real
    requires cfg.rate != 0.0
  {
    cfg.ttl + (cfg.Cap() - Gain(cfg.rate, cfg.ttl - d)) / (2.0 * cfg.rate)
  }

  lemma ReturnTimeWorks(cfg: Config, d: real)
    requires cfg.Positive() && Gain(cfg.rate, cfg.ttl - d) < cfg.Cap()
    ensures ReturnTime(cfg, d) > cfg.ttl && Gain(cfg.rate, ReturnTime(cfg, d) - d) < cfg.Cap()
  {
    var gap := cfg.Cap() - Gain(cfg.rate, cfg.ttl - d);
    var eps := gap / (2.0 * cfg.rate);
    assert eps > 0.0;
    assert Gain(cfg.rate, eps) == gap / 2.0;
    GainSplit(cfg.rate, cfg.ttl - d, eps);
    assert (cfg.ttl - d) + eps == ReturnTime(cfg, d) - d;
  }

  /** Whenever the side condition fails, forgetting a client admits a request that an unbounded table refuses. */
  lemma ForgettingShowsOtherwise(cfg: Config, lag: real) returns (evs: seq<Event>, req: nat, t: real)
    requires cfg.Positive() && cfg.ttl >= 0.0 && lag >= 0.0 && !RefillsInTime(cfg, lag)
    ensures Legal(cfg, 0.0, lag, evs) && NeverFull(cfg, 0.0, evs)
    ensures Enabled(After(cfg, 0.0, evs), lag, Decide(req, t)) && req in UnboundedAfter(cfg, evs).held
    ensures Admitted(After(cfg, 0.0, evs).(now := t), req) && !UnboundedAdmits(cfg, UnboundedAfter(cfg, evs), req, t)
  {
    var z := if cfg.ttl >= CLEANUP_INTERVAL then 0.0 else CLEANUP_INTERVAL - cfg.ttl;
    var d := if lag <= cfg.ttl then lag else cfg.ttl;
    assert Gain(cfg.rate, 0.0) == 0.0;
    ReturnTimeWorks(cfg, d);
    t := z + ReturnTime(cfg, d);
    assert t - (z + d) == ReturnTime(cfg, d) - d;
    var s, u;
    evs, s, u, req := Show(cfg, lag, z, d, t);
    ReachesIsRun(cfg, lag, evs, s, u);
  }

  lemma Show(cfg: Config, lag: real, z: real, d: real, t: real)
    returns (evs: seq<Event>, s: Tier, u: Unbounded, req: nat)
    requires cfg.Positive() && 0.0 <= d <= lag && z + d <= t
    requires 0.0 <= z <= CLEANUP_INTERVAL <= z + cfg.ttl < t
    requires Gain(cfg.rate, t - (z + d)) < cfg.Cap()
    ensures Reaches(cfg, lag, evs, s, u) && Enabled(s, lag, Decide(req, t)) && req in u.held
    ensures Admitted(s.(now := t), req) && !UnboundedAdmits(cfg, u, req, t)
  {
    hide *;
    var evs0, s0, u0 := Drain(cfg, lag, cfg.burst, z, d);
    var earned := EarnedBy(cfg, s0, z, d, t);
    var evs1, s1, u1 := FirstBack(cfg, lag, evs0, s0, u0, z, d, earned, t);
    var j: nat := earned.Floor;
    evs, s, u := Rounds(cfg, lag, evs1, s1, u1, j, earned, t);
    req := cfg.burst + j;
    Mismatch(cfg, lag, evs, s, u, j, earned, t);
  }

  lemma EarnedBy(cfg: Config, s: Tier, z: real, d: real, t: real) returns (earned: real)
    requires cfg.Positive() && z + d <= t && Gain(cfg.rate, t - (z + d)) < cfg.Cap() && Drained(cfg, s, cfg.burst, z, d)
    ensures "c" in s.forever && earned == At(s.forever["c"], t) && 0.0 <= earned < cfg.burst as real
  {
    earned := At(s.forever["c"], t);
    GainMono(cfg.rate, 0.0, t - (z + d));
  }

  lemma Mismatch(cfg: Config, lag: real, evs: seq<Event>, s: Tier, u: Unbounded, j: nat, earned: real, t: real)
    requires Reaches(cfg, lag, evs, s, u) && Asking(cfg, s, j, earned, t)
    requires lag >= 0.0 && j < cfg.burst && j as real <= earned < j as real + 1.0
    ensures Enabled(s, lag, Decide(cfg.burst + j, t)) && cfg.burst + j in u.held
    ensures Admitted(s.(now := t), cfg.burst + j) && !UnboundedAdmits(cfg, u, cfg.burst + j, t)
  {
    assert s.held[cfg.burst + j] == Held("c", Own(1), t);
    FreshAt(cfg, s.buckets[1], t);
    assert u.held[cfg.burst + j] == "c";
  }
}
