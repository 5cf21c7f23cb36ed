/**
 The widening in `GateTier.GlobalBoundByDecision` is needed: as soon as decisions may lag behind the
 gate at all, some run decides more requests in a window than the global budget of that window.

 The run spends the global burst at once and earns one more token; the first requests are decided as
 late as `delay` permits, the last one right after its gate. The requests are spread over as many
 clients as their bursts make necessary, the last of them on the overflow bucket.
*/
module DelayShows {
  import opened Wrappers
  import opened TokenBucket
  import opened RateLimiter
  import opened ClientTier
  import opened GateTier

  /** `xs` is a history that leads to `s`. */
  ghost predicate Reached(cfg: Config, globalRate: real, globalBurst: nat, t0: real, xs: seq<Arrival>,
                          s: GateTier.Limiter) {
    History(cfg, globalRate, globalBurst, t0, xs) && s == AfterAll(cfg, globalRate, globalBurst, t0, xs)
  }

  lemma Extend(cfg: Config, globalRate: real, globalBurst: nat, t0: real, xs: seq<Arrival>, s: GateTier.Limiter,
               x: Arrival)
    requires Reached(cfg, globalRate, globalBurst, t0, xs, s) && MayHappen(s, x)
    ensures Reached(cfg, globalRate, globalBurst, t0, xs + [x], Pass(cfg, s, x))
  {
    hide Pass, MayHappen;
    assert (xs + [x])[..|xs|] == xs;
  }

  // ----- clients with tokens left -----

  function Name(j: nat): string { seq(j, _ => 'c') }

  ghost function NamesBelow(n: nat): set<string> { set j: nat | j < n :: Name(j) }

  lemma {:induction false} FewNames(n: nat)
    ensures |NamesBelow(n)| <= n
  {
    if n > 0 {
      FewNames(n - 1);
      assert NamesBelow(n) == NamesBelow(n - 1) + {Name(n - 1)};
    }
  }

  lemma NewName(n: nat)
    ensures Name(n) !in NamesBelow(n)
  {
    forall j: nat | j < n ensures Name(j) != Name(n) { assert |Name(j)| == j; }
  }

  lemma NamesGrow(n: nat)
    ensures NamesBelow(n) <= NamesBelow(n + 1) && Name(n) in NamesBelow(n + 1)
  {
  }

  /** The bucket has at least `n` tokens. */
  ghost predicate Holds(cfg: Config, b: Bucket, now: real, n: int) { Good(cfg, b, now) && At(b, now) >= n as real }

  lemma HoldsLater(cfg: Config, b: Bucket, now: real, n: int, t: real)
    requires cfg.Positive() && Holds(cfg, b, now, n) && now <= t
    ensures Holds(cfg, b, t, n)
  {
    AtLater(b, now, t);
    AtInRange(b, now);
    GainMono(b.rate, 0.0, t - now);
  }

  lemma TakesOne(cfg: Config, b: Bucket, now: real, n: int)
    requires cfg.Positive() && Holds(cfg, b, now, n) && n >= 1
    ensures Admits(b, now) && Holds(cfg, Take(b, now), now, n - 1)
  {
    TakeValid(b, now);
  }

  /** How many tokens the overflow bucket has, when client `c` has used `k`. */
  function SharedLeft(cfg: Config, c: nat, k: nat): int { if c == cfg.maxClients then cfg.burst - k else cfg.burst }

  /** Clients before `c` may be seated, client `c` has been admitted `k` times, and later ones are new. */
  ghost predicate Room(cfg: Config, s: Tier, c: nat, k: nat) {
    && c <= cfg.maxClients && k < cfg.burst
    && s.visitors.Keys <= NamesBelow(if k == 0 then c else c + 1)
    && (Name(c) in s.visitors ==>
          && s.visitors[Name(c)].limiter < |s.buckets|
          && Holds(cfg, s.buckets[s.visitors[Name(c)].limiter], s.now, cfg.burst - k))
    && Holds(cfg, s.shared, s.now, SharedLeft(cfg, c, k))
  }

  lemma RoomAtStart(cfg: Config, t0: real)
    requires cfg.Positive()
    ensures Room(cfg, Start(cfg, t0), 0, 0)
  {
    FullIsGood(cfg, t0);
  }

  lemma RoomLater(cfg: Config, s: Tier, c: nat, k: nat, t: real)
    requires cfg.Positive() && Room(cfg, s, c, k) && s.now <= t
    ensures Room(cfg, s.(now := t), c, k)
  {
    hide Holds, NamesBelow;
    HoldsLater(cfg, s.shared, s.now, SharedLeft(cfg, c, k), t);
    if Name(c) in s.visitors {
      HoldsLater(cfg, s.buckets[s.visitors[Name(c)].limiter], s.now, cfg.burst - k, t);
    }
  }

  lemma RoomSwept(cfg: Config, s: Tier, c: nat, k: nat)
    requires Room(cfg, s, c, k)
    ensures Room(cfg, Sweep(cfg, s), c, k) && Sweep(cfg, s).now == s.now
    ensures Sweep(cfg, s).admitted == s.admitted
  {
    hide Holds, NamesBelow;
  }

  /** Request `req` of client `c` holds a bucket with a token. */
  ghost predicate Asking(cfg: Config, s: Tier, req: nat, c: nat, k: nat) {
    && c <= cfg.maxClients && k < cfg.burst && s.visitors.Keys <= NamesBelow(c + 1)
    && req in s.held && s.held[req].client == Name(c)
    && Holds(cfg, s.shared, s.now, SharedLeft(cfg, c, k))
    && match s.held[req].target
       case Own(id) =>
         && Name(c) in s.visitors && s.visitors[Name(c)].limiter == id && id < |s.buckets|
         && Holds(cfg, s.buckets[id], s.now, cfg.burst - k)
       case Shared => c == cfg.maxClients && Name(c) !in s.visitors
  }

  /** Only the last client can find the table full. */
  lemma FreeSeat(cfg: Config, s: Tier, c: nat, k: nat)
    requires Room(cfg, s, c, k) && Name(c) !in s.visitors
    ensures |s.visitors| <= c
  {
    assert s.visitors.Keys <= NamesBelow(c) by {
      if k > 0 { assert NamesBelow(c + 1) == NamesBelow(c) + {Name(c)}; }
    }
    FewNames(c);
    SubsetSize(s.visitors.Keys, NamesBelow(c));
    assert |s.visitors.Keys| == |s.visitors|;
  }

  lemma GrantedSeat(cfg: Config, s: Tier, req: nat, c: nat, k: nat)
    requires cfg.Positive() && Room(cfg, s, c, k) && Name(c) !in s.visitors && |s.visitors| < cfg.maxClients
    ensures Asking(cfg, Grant(cfg, s, req, Name(c)), req, c, k)
  {
    var b, id, s' := Full(cfg.rate, cfg.Cap(), s.now), |s.buckets|, Grant(cfg, s, req, Name(c));
    assert Holds(cfg, b, s.now, cfg.burst - k) by { FullIsGood(cfg, s.now); }
    hide Holds, NamesBelow, Name, Full;
    assert s'.visitors == s.visitors[Name(c) := Visitor(id, s.now)] && s'.buckets == s.buckets + [b];
    assert s'.held == s.held[req := Held(Name(c), Own(id), s.now)] && s'.shared == s.shared && s'.now == s.now;
    hide Grant;
    assert s'.visitors.Keys <= NamesBelow(c + 1) by { NamesGrow(c); }
  }

  lemma Granted(cfg: Config, s: Tier, req: nat, c: nat, k: nat)
    requires cfg.Positive() && Room(cfg, s, c, k)
    ensures Asking(cfg, Grant(cfg, s, req, Name(c)), req, c, k) && Grant(cfg, s, req, Name(c)).now == s.now
    ensures Grant(cfg, s, req, Name(c)).admitted == s.admitted
  {
    NamesGrow(c);
    if Name(c) !in s.visitors {
      FreeSeat(cfg, s, c, k);
      if |s.visitors| < cfg.maxClients { GrantedSeat(cfg, s, req, c, k); }
    }
    hide Holds, NamesBelow, Name;
  }

  /** Where the next request goes. */
  ghost predicate Next(cfg: Config, s: Tier, c: nat, k: nat) {
    && (k + 1 < cfg.burst ==> Room(cfg, s, c, k + 1))
    && (k + 1 == cfg.burst && c < cfg.maxClients ==> Room(cfg, s, c + 1, 0))
  }

  lemma OwnAnswered(cfg: Config, s: Tier, req: nat, c: nat, k: nat)
    requires cfg.Positive() && Asking(cfg, s, req, c, k) && s.held[req].target.Own?
    ensures Admitted(s, req) && Next(cfg, Answer(cfg, s, req), c, k)
  {
    TakesOne(cfg, s.buckets[s.held[req].target.id], s.now, cfg.burst - k);
    assert Holds(cfg, s.shared, s.now, SharedLeft(cfg, c, k + 1));
    NewName(c + 1);
    hide Holds, NamesBelow, Name, Take, Admits;
  }

  lemma SharedAnswered(cfg: Config, s: Tier, req: nat, c: nat, k: nat)
    requires cfg.Positive() && Asking(cfg, s, req, c, k) && s.held[req].target.Shared?
    ensures Admitted(s, req) && Next(cfg, Answer(cfg, s, req), c, k)
  {
    TakesOne(cfg, s.shared, s.now, cfg.burst - k);
    hide Holds, NamesBelow, Name, Take, Admits;
  }

  /** One more admission, and nothing else recorded. */
  ghost predicate Records(s: Tier, s': Tier, req: nat, t: real) {
    && s'.now == t && s'.admitted.Keys == s.admitted.Keys + {req} && s'.admitted[req].at == t
    && forall r | r in s.admitted && r != req :: s'.admitted[r] == s.admitted[r]
  }

  lemma AnswerRecords(cfg: Config, s: Tier, req: nat)
    requires req in s.held && Admitted(s, req)
    ensures Records(s, Answer(cfg, s, req), req, s.now)
  {
    hide Take, Admits;
  }

  lemma Answered(cfg: Config, s: Tier, req: nat, c: nat, k: nat)
    requires cfg.Positive() && Asking(cfg, s, req, c, k)
    ensures req in s.held && Next(cfg, Answer(cfg, s, req), c, k) && Records(s, Answer(cfg, s, req), req, s.now)
  {
    assert req in s.held;
    hide Next, Records, Answer, Admitted;
    if s.held[req].target.Own? { OwnAnswered(cfg, s, req, c, k); } else { SharedAnswered(cfg, s, req, c, k); }
    AnswerRecords(cfg, s, req);
  }

  // ----- the run -----

  /** Client `c`'s `k`-th request is request `i` of all. */
  ghost predicate Position(cfg: Config, i: nat, c: nat, k: nat) { k < cfg.burst && i == c * cfg.burst + k }

  lemma NextPosition(cfg: Config, i: nat, c: nat, k: nat) returns (c': nat, k': nat)
    requires Position(cfg, i, c, k)
    ensures Position(cfg, i + 1, c', k')
    ensures if k + 1 < cfg.burst then c' == c && k' == k + 1 else c' == c + 1 && k' == 0
  {
    if k + 1 < cfg.burst {
      c', k' := c, k + 1;
    } else {
      c', k' := c + 1, 0;
      assert (c + 1) * cfg.burst == c * cfg.burst + cfg.burst;
    }
  }

  /** All clients and the overflow together can be admitted more than `n` times at once. */
  ghost predicate Roomy(cfg: Config, n: nat) { n < cfg.burst * (cfg.maxClients + 1) }

  lemma InRange(cfg: Config, i: nat, n: nat, c: nat, k: nat)
    requires Position(cfg, i, c, k) && i <= n && Roomy(cfg, n)
    ensures c <= cfg.maxClients
  {
    MoreClients(c, cfg.maxClients + 1, cfg.burst);
  }

  lemma MoreClients(c: nat, d: nat, burst: nat)
    ensures c >= d ==> c * burst >= d * burst
  {
    if c >= d {
      assert c * burst == d * burst + (c - d) * burst;
    }
  }

  /** A request acquires its bucket and is decided at once, at `t`. */
  lemma ServeOne(cfg: Config, s: Tier, req: nat, c: nat, k: nat, t: real) returns (mid: Tier, after: Tier)
    requires cfg.Positive() && Room(cfg, s, c, k) && s.now <= t
    ensures mid == ClientTier.Step(cfg, s, Acquire(req, Name(c), t))
            && after == ClientTier.Step(cfg, mid, Decide(req, t))
    ensures mid.now == t && req in mid.held
    ensures Next(cfg, after, c, k) && Records(s, after, req, t)
  {
    RoomLater(cfg, s, c, k, t);
    var swept := Sweep(cfg, s.(now := t));
    RoomSwept(cfg, s.(now := t), c, k);
    Granted(cfg, swept, req, c, k);
    mid := Grant(cfg, swept, req, Name(c));
    Answered(cfg, mid, req, c, k);
    after := Answer(cfg, mid, req);
    hide Room, Asking, Next, Grant, Answer, Sweep, Name;
    assert mid.(now := t) == mid;
  }

  /** `i` requests have been decided at `t`, and the next is client `c`'s after `k` others. */
  ghost predicate Decided(cfg: Config, s: GateTier.Limiter, gates: seq<real>, global: Bucket, i: nat, t: real, c: nat,
                          k: nat) {
    && s.gates == gates && s.global == global && Position(cfg, i, c, k) && Room(cfg, s.tier, c, k)
    && s.tier.now <= t && (forall r: nat :: r in s.tier.admitted <==> r < i)
    && forall r | r in s.tier.admitted :: s.tier.admitted[r].at == t
  }

  lemma ServeNext(cfg: Config, globalRate: real, globalBurst: nat, t0: real, xs0: seq<Arrival>, s0: GateTier.Limiter,
                  req: nat, c: nat, k: nat, t: real)
    returns (xs: seq<Arrival>, s: GateTier.Limiter)
    requires cfg.Positive() && Reached(cfg, globalRate, globalBurst, t0, xs0, s0)
    requires Room(cfg, s0.tier, c, k) && s0.tier.now <= t && req < |s0.gates|
    ensures Reached(cfg, globalRate, globalBurst, t0, xs, s) && s.gates == s0.gates && s.global == s0.global
    ensures Next(cfg, s.tier, c, k) && Records(s0.tier, s.tier, req, t)
  {
    hide Reached, Room, Next, Records, Name, ClientTier.Step;
    var mid, after := ServeOne(cfg, s0.tier, req, c, k, t);
    var x, y := Inner(Acquire(req, Name(c), t)), Inner(Decide(req, t));
    Extend(cfg, globalRate, globalBurst, t0, xs0, s0, x);
    var s1 := Pass(cfg, s0, x);
    Extend(cfg, globalRate, globalBurst, t0, xs0 + [x], s1, y);
    xs, s := xs0 + [x] + [y], Pass(cfg, s1, y);
  }

  lemma {:induction false} ServeMany(cfg: Config, globalRate: real, globalBurst: nat, t0: real, xs0: seq<Arrival>,
                                     s0: GateTier.Limiter, i: nat, t: real)
    returns (xs: seq<Arrival>, s: GateTier.Limiter, c: nat, k: nat)
    requires cfg.Positive() && Reached(cfg, globalRate, globalBurst, t0, xs0, s0)
    requires s0.tier == Start(cfg, t0) && t0 <= t && i <= |s0.gates| && Roomy(cfg, |s0.gates|)
    ensures Reached(cfg, globalRate, globalBurst, t0, xs, s) && Decided(cfg, s, s0.gates, s0.global, i, t, c, k)
  {
    hide Reached, Room, Next, Roomy;
    if i == 0 {
      xs, s, c, k := xs0, s0, 0, 0;
      NothingDecided(cfg, s0, t0, t);
    } else {
      var xs1, s1, c1, k1 := ServeMany(cfg, globalRate, globalBurst, t0, xs0, s0, i - 1, t);
      xs, s := ServeNext(cfg, globalRate, globalBurst, t0, xs1, s1, i - 1, c1, k1, t);
      c, k := DecidedNext(cfg, s1, s, s0.gates, s0.global, i - 1, t, c1, k1);
    }
  }

  lemma NothingDecided(cfg: Config, s: GateTier.Limiter, t0: real, t: real)
    requires cfg.Positive() && s.tier == Start(cfg, t0) && t0 <= t
    ensures Decided(cfg, s, s.gates, s.global, 0, t, 0, 0)
  {
    RoomAtStart(cfg, t0);
    hide Room;
    assert Position(cfg, 0, 0, 0);
  }

  lemma DecidedNext(cfg: Config, s: GateTier.Limiter, s': GateTier.Limiter, gates: seq<real>, global: Bucket, i: nat,
                    t: real,
                    c: nat, k: nat)
    returns (c': nat, k': nat)
    requires Decided(cfg, s, gates, global, i, t, c, k) && i < |gates| && Roomy(cfg, |gates|)
    requires Next(cfg, s'.tier, c, k) && Records(s.tier, s'.tier, i, t) && s'.gates == gates && s'.global == global
    ensures Decided(cfg, s', gates, global, i + 1, t, c', k')
  {
    c', k' := NextPosition(cfg, i, c, k);
    InRange(cfg, i + 1, |gates|, c', k');
    hide Room, Position, Roomy;
    assert Room(cfg, s'.tier, c', k');
  }

  /** `n` requests have passed the gate at `t0`. */
  lemma {:induction false} Gates(cfg: Config, globalRate: real, globalBurst: nat, t0: real, n: nat)
    returns (xs: seq<Arrival>, s: GateTier.Limiter)
    requires n <= globalBurst
    ensures Reached(cfg, globalRate, globalBurst, t0, xs, s)
    ensures s.tier == Start(cfg, t0) && s.gates == seq(n, _ => t0)
    ensures s.global == Bucket(globalRate, globalBurst as real, (globalBurst - n) as real, t0)
  {
    if n == 0 {
      xs, s := [], Begin(cfg, globalRate, globalBurst, t0);
    } else {
      hide Reached, Start;
      var xs1, s1 := Gates(cfg, globalRate, globalBurst, t0, n - 1);
      assert Gain(globalRate, t0 - t0) == 0.0;
      assert s1.tier.now == t0 by { StartNow(cfg, t0); }
      Extend(cfg, globalRate, globalBurst, t0, xs1, s1, Gate(t0));
      xs, s := xs1 + [Gate(t0)], Pass(cfg, s1, Gate(t0));
    }
  }

  lemma StartNow(cfg: Config, t0: real)
    ensures Start(cfg, t0).now == t0
  {
  }

  /** The time to earn one token. */
  function OneToken(rate: real): real
    requires rate > 0.0
  {
    1.0 / rate
  }

  lemma EarnsOne(rate: real, delay: real)
    requires rate > 0.0 && 0.0 < delay <= OneToken(rate)
    ensures OneToken(rate) > 0.0 && Gain(rate, OneToken(rate)) == 1.0 && Gain(rate, OneToken(rate) - delay) < 1.0
  {
    var p := OneToken(rate);
    assert rate * p == 1.0;
    assert rate * delay > 0.0;
    GainSplit(rate, p - delay, delay);
    assert (p - delay) + delay == p;
  }

  /** The gate that the earned token opens. */
  lemma LastGate(cfg: Config, globalRate: real, globalBurst: nat, t0: real, xs0: seq<Arrival>, s0: GateTier.Limiter,
                 i: nat, d: real, c: nat, k: nat)
    returns (xs: seq<Arrival>, s: GateTier.Limiter)
    requires cfg.Positive() && globalRate > 0.0 && globalBurst >= 1 && d <= t0 + OneToken(globalRate)
    requires Reached(cfg, globalRate, globalBurst, t0, xs0, s0)
    requires Decided(cfg, s0, s0.gates, Bucket(globalRate, globalBurst as real, 0.0, t0), i, d, c, k)
    ensures Reached(cfg, globalRate, globalBurst, t0, xs, s)
    ensures s.gates == s0.gates + [t0 + OneToken(globalRate)] && s.tier == s0.tier.(now := t0 + OneToken(globalRate))
    ensures Room(cfg, s.tier, c, k) && s.tier.now == t0 + OneToken(globalRate)
  {
    hide Reached, Room, OneToken;
    var p := OneToken(globalRate);
    EarnsOne(globalRate, p) by { Positive(globalRate); }
    assert t0 + p - t0 == p;
    RoomLater(cfg, s0.tier, c, k, t0 + p);
    Extend(cfg, globalRate, globalBurst, t0, xs0, s0, Gate(t0 + p));
    xs, s := xs0 + [Gate(t0 + p)], Pass(cfg, s0, Gate(t0 + p));
  }

  lemma Positive(rate: real)
    requires rate > 0.0
    ensures OneToken(rate) > 0.0
  {
  }

  /** `globalBurst` requests were decided at `d` and one at `p`. */
  ghost predicate AllDecided(s: GateTier.Limiter, n: nat, t0: real, d: real, p: real) {
    && s.gates == seq(n, _ => t0) + [p]
    && (forall r: nat :: r in s.tier.admitted <==> r <= n)
    && forall r | r in s.tier.admitted :: s.tier.admitted[r].at == if r < n then d else p
  }

  lemma Run(cfg: Config, globalRate: real, globalBurst: nat, t0: real, d: real)
    returns (xs: seq<Arrival>, s: GateTier.Limiter)
    requires cfg.Positive() && globalRate > 0.0 && globalBurst >= 1 && Roomy(cfg, globalBurst)
    requires t0 <= d <= t0 + OneToken(globalRate)
    ensures Reached(cfg, globalRate, globalBurst, t0, xs, s)
    ensures AllDecided(s, globalBurst, t0, d, t0 + OneToken(globalRate))
  {
    hide Reached, Room, Next, OneToken, Start, Position, Roomy;
    var p := t0 + OneToken(globalRate);
    var xs0, s0 := Gates(cfg, globalRate, globalBurst, t0, globalBurst);
    var xs1, s1, c, k := ServeMany(cfg, globalRate, globalBurst, t0, xs0, s0, globalBurst, d);
    var xs2, s2 := LastGate(cfg, globalRate, globalBurst, t0, xs1, s1, globalBurst, d, c, k);
    xs, s := ServeNext(cfg, globalRate, globalBurst, t0, xs2, s2, globalBurst, c, k, p);
    assert forall r: nat :: r in s1.tier.admitted <==> r < globalBurst;
  }

  lemma RunIsPrompt(s: GateTier.Limiter, n: nat, t0: real, d: real, p: real, delay: real)
    requires AllDecided(s, n, t0, d, p) && d <= t0 + delay && delay >= 0.0
    ensures Prompt(s, delay)
  {
  }

  lemma WindowHoldsAll(s: GateTier.Limiter, n: nat, t0: real, d: real, p: real)
    requires AllDecided(s, n, t0, d, p) && d <= p
    ensures |DecidedWindow(s, d, p)| == n + 1
  {
    assert DecidedWindow(s, d, p) == s.tier.admitted.Keys;
    UpTo(s.tier.admitted.Keys, n + 1);
  }

  lemma {:induction false} UpTo(xs: set<nat>, n: nat)
    requires forall r: nat :: r in xs <==> r < n
    ensures |xs| == n
  {
    if n > 0 {
      UpTo(xs - {n - 1}, n - 1);
    } else {
      assert xs == {};
    }
  }

  /**
   Whenever decisions may lag, some history decides more requests in a window than its budget, provided
   that the client table has room for one request more than the global burst.
  */
  lemma DelayShowsUp(cfg: Config, globalRate: real, globalBurst: nat, t0: real, delay: real)
    returns (xs: seq<Arrival>, a: real, e: real)
    requires cfg.Positive() && globalRate > 0.0 && globalBurst >= 1 && Roomy(cfg, globalBurst) && delay > 0.0
    ensures History(cfg, globalRate, globalBurst, t0, xs) && a <= e
    ensures Prompt(AfterAll(cfg, globalRate, globalBurst, t0, xs), delay)
    ensures a == t0 + Min(delay, OneToken(globalRate)) && e == t0 + OneToken(globalRate)
    ensures |DecidedWindow(AfterAll(cfg, globalRate, globalBurst, t0, xs), a, e)| == globalBurst + 1
    ensures (globalBurst + 1) as real > globalBurst as real + Gain(globalRate, e - a)
  {
    hide *;
    var p := OneToken(globalRate);
    Positive(globalRate);
    var d := Min(delay, p);
    Earlier(delay, p);
    var s;
    xs, s := Run(cfg, globalRate, globalBurst, t0, t0 + d);
    ReachedBy(cfg, globalRate, globalBurst, t0, xs, s);
    a, e := t0 + d, t0 + p;
    RunIsPrompt(s, globalBurst, t0, a, e, delay);
    WindowHoldsAll(s, globalBurst, t0, a, e);
    Exceeds(globalRate, globalBurst, t0, d);
  }

  lemma Earlier(delay: real, p: real)
    requires delay > 0.0 && p > 0.0
    ensures 0.0 < Min(delay, p) <= p && Min(delay, p) <= delay
  {
  }

  lemma ReachedBy(cfg: Config, globalRate: real, globalBurst: nat, t0: real, xs: seq<Arrival>, s: GateTier.Limiter)
    requires Reached(cfg, globalRate, globalBurst, t0, xs, s)
    ensures History(cfg, globalRate, globalBurst, t0, xs) && AfterAll(cfg, globalRate, globalBurst, t0, xs) == s
  {
    hide History, AfterAll;
  }

  lemma Exceeds(globalRate: real, globalBurst: nat, t0: real, d: real)
    requires globalRate > 0.0 && 0.0 < d <= OneToken(globalRate)
    ensures (globalBurst + 1) as real
          > globalBurst as real + Gain(globalRate, t0 + OneToken(globalRate) - (t0 + d))
  {
    hide Gain, OneToken;
    EarnsOne(globalRate, d);
    assert t0 + OneToken(globalRate) - (t0 + d) == OneToken(globalRate) - d;
  }

  /** The smallest case: a global bucket of one token a second, and two decisions at the same instant. */
  lemma TwoAtOnce() returns (xs: seq<Arrival>)
    ensures var s := AfterAll(Config(1.0, 2, 1, 600.0), 1.0, 1, 0.0, xs);
            && History(Config(1.0, 2, 1, 600.0), 1.0, 1, 0.0, xs) && Prompt(s, 1.0)
            && |DecidedWindow(s, 1.0, 1.0)| == 2
  {
    hide History, AfterAll, Prompt, DecidedWindow;
    var a, e;
    xs, a, e := DelayShowsUp(Config(1.0, 2, 1, 600.0), 1.0, 1, 0.0, 1.0);
  }

  /** The bound without the widening, for every history in which decisions lag by at most `delay`. */
  ghost predicate Unwidened(cfg: Config, globalRate: real, globalBurst: nat, t0: real, delay: real) {
    forall xs, a, e | History(cfg, globalRate, globalBurst, t0, xs) && a <= e
                      && Prompt(AfterAll(cfg, globalRate, globalBurst, t0, xs), delay) ::
      |DecidedWindow(AfterAll(cfg, globalRate, globalBurst, t0, xs), a, e)| as real
        <= globalBurst as real + Gain(globalRate, e - a)
  }

  /** Counted by decision, the budget of a window holds in every history exactly if decisions do not lag. */
  lemma UnwidenedIff(cfg: Config, globalRate: real, globalBurst: nat, t0: real, delay: real)
    requires cfg.Positive() && globalRate > 0.0 && globalBurst >= 1 && Roomy(cfg, globalBurst) && delay >= 0.0
    ensures Unwidened(cfg, globalRate, globalBurst, t0, delay) <==> delay == 0.0
  {
    hide History, AfterAll, Prompt, Roomy, DecidedWindow, Gain;
    if delay > 0.0 {
      var xs, a, e := DelayShowsUp(cfg, globalRate, globalBurst, t0, delay);
    } else {
      forall xs, a, e | History(cfg, globalRate, globalBurst, t0, xs) && a <= e
                        && Prompt(AfterAll(cfg, globalRate, globalBurst, t0, xs), delay)
        ensures |DecidedWindow(AfterAll(cfg, globalRate, globalBurst, t0, xs), a, e)| as real
             <= globalBurst as real + Gain(globalRate, e - a)
      {
        GlobalBoundByDecision(cfg, globalRate, globalBurst, t0, xs, a, e, delay);
        assert e - a + delay == e - a;
      }
    }
  }
}
