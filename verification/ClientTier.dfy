/**
 All interleavings of requests through the client table of the rate limiter.

 A request first obtains its bucket under the mutex (`Acquire`) and later, at its own
 clock reading, asks that bucket for a token (`Decide`). `lag` bounds the time between
 the two. `forever` is the table the limiter approximates: it never forgets a client.
*/
module ClientTier {
  import opened Wrappers
  import opened TokenBucket
  import opened RateLimiter

  datatype Config = Config(rate: real, burst: nat, maxClients: nat, ttl: real) {
    function Cap(): real { burst as real }
    ghost predicate Positive() { rate > 0.0 && burst >= 1 && maxClients >= 1 }
  }

  datatype Target = Own(id: nat) | Shared

  datatype Held = Held(client: string, target: Target, at: real)

  datatype Admission = Admission(client: string, shared: bool, at: real)

  datatype Tier = Tier(
    now: real,
    visitors: map<string, Visitor<nat>>,
    buckets: seq<Bucket>,
    shared: Bucket,
    nextCleanup: real,
    held: map<nat, Held>,
    admitted: map<nat, Admission>,
    forever: map<string, Bucket>)

  datatype Event = Acquire(req: nat, client: string, t: real) | Decide(req: nat, t: real)

  function Start(cfg: Config, now: real): Tier {
    Tier(now, map[], [], Full(cfg.rate, cfg.Cap(), now), now + CLEANUP_INTERVAL, map[], map[], map[])
  }

  /** The bucket `client` would have if it had never been forgotten. */
  function ForeverOf(cfg: Config, forever: map<string, Bucket>, client: string, t: real): Bucket {
    if client in forever then forever[client] else Full(cfg.rate, cfg.Cap(), t)
  }

  /** `Acquire`, after the sweep. */
  function Grant(cfg: Config, s: Tier, req: nat, client: string): Tier {
    if client in s.visitors then
      var id := s.visitors[client].limiter;
      s.(visitors := s.visitors[client := Visitor(id, s.now)], held := s.held[req := Held(client, Own(id), s.now)])
    else if |s.visitors| >= cfg.maxClients then
      s.(held := s.held[req := Held(client, Shared, s.now)])
    else
      var id := |s.buckets|;
      s.(visitors := s.visitors[client := Visitor(id, s.now)],
         buckets := s.buckets + [Full(cfg.rate, cfg.Cap(), s.now)],
         held := s.held[req := Held(client, Own(id), s.now)])
  }

  function Sweep(cfg: Config, s: Tier): Tier {
    s.(visitors := Swept(s.visitors, s.nextCleanup, cfg.ttl, s.now), nextCleanup := NextCleanup(s.nextCleanup, s.now))
  }

  predicate Admitted(s: Tier, req: nat)
    requires req in s.held
  {
    match s.held[req].target
    case Own(id) => id < |s.buckets| && Admits(s.buckets[id], s.now)
    case Shared => Admits(s.shared, s.now)
  }

  function Answer(cfg: Config, s: Tier, req: nat): Tier
    requires req in s.held
  {
    var h := s.held[req];
    var s := if Admitted(s, req)
             then s.(admitted := s.admitted[req := Admission(h.client, h.target.Shared?, s.now)],
                     held := s.held - {req})
             else s.(held := s.held - {req});
    match h.target
    case Own(id) =>
      if id < |s.buckets| then
        s.(buckets := s.buckets[id := Take(s.buckets[id], s.now)],
           forever := s.forever[h.client := Take(ForeverOf(cfg, s.forever, h.client, s.now), s.now)])
      else s
    case Shared => s.(shared := Take(s.shared, s.now))
  }

  function Step(cfg: Config, s: Tier, ev: Event): Tier {
    match ev
    case Acquire(req, client, t) => Grant(cfg, Sweep(cfg, s.(now := t)), req, client)
    case Decide(req, t) => if req in s.held then Answer(cfg, s.(now := t), req) else s
  }

  /** Nobody has held a bucket for more than `lag` without asking it. */
  ghost predicate Timely(s: Tier, lag: real, t: real) {
    s.now <= t && forall r | r in s.held :: t <= s.held[r].at + lag
  }

  ghost predicate Enabled(s: Tier, lag: real, ev: Event) {
    match ev
    case Acquire(req, _, t) => Timely(s, lag, t) && req !in s.held && req !in s.admitted
    case Decide(req, t) => Timely(s, lag, t) && req in s.held
  }

  function After(cfg: Config, t0: real, evs: seq<Event>): Tier {
    if evs == [] then Start(cfg, t0) else Step(cfg, After(cfg, t0, evs[..|evs| - 1]), evs[|evs| - 1])
  }

  ghost predicate Legal(cfg: Config, t0: real, lag: real, evs: seq<Event>) {
    evs == [] ||
    (Legal(cfg, t0, lag, evs[..|evs| - 1]) && Enabled(After(cfg, t0, evs[..|evs| - 1]), lag, evs[|evs| - 1]))
  }

  /** An idle client's bucket has refilled by the time it can be forgotten. */
  ghost predicate RefillsInTime(cfg: Config, lag: real) {
    cfg.Positive() && lag >= 0.0 && cfg.Cap() <= Gain(cfg.rate, cfg.ttl - lag)
  }

  lemma LagBelowTtl(cfg: Config, lag: real)
    requires RefillsInTime(cfg, lag)
    ensures lag <= cfg.ttl
  {
    if cfg.ttl - lag < 0.0 { GainMono(cfg.rate, cfg.ttl - lag, 0.0); }
  }

  // ----- the invariant -----

  ghost predicate Good(cfg: Config, b: Bucket, now: real) {
    Valid(b, now) && b.rate == cfg.rate && b.cap == cfg.Cap()
  }

  ghost predicate BucketsGood(cfg: Config, s: Tier) {
    && (forall i | 0 <= i < |s.buckets| :: Good(cfg, s.buckets[i], s.now))
    && (forall c | c in s.forever :: Good(cfg, s.forever[c], s.now))
    && Good(cfg, s.shared, s.now)
  }

  ghost predicate TableGood(cfg: Config, s: Tier, lag: real) {
    && |s.visitors| <= cfg.maxClients
    && (forall c | c in s.visitors :: SeatGood(s, s.visitors[c], lag))
    && (forall c, d | c in s.visitors && d in s.visitors && s.visitors[c].limiter == s.visitors[d].limiter :: c == d)
  }

  ghost predicate SeatGood(s: Tier, v: Visitor<nat>, lag: real) {
    v.limiter < |s.buckets| && v.lastSeen <= s.now && s.buckets[v.limiter].last <= v.lastSeen + lag
  }

  /** A client in the table cannot tell its bucket from its forever-bucket; any other has a full one. */
  ghost predicate Remembers(cfg: Config, s: Tier, c: string) {
    if c in s.visitors then
      && s.visitors[c].limiter < |s.buckets|
      && Same(s.buckets[s.visitors[c].limiter], ForeverOf(cfg, s.forever, c, s.now), s.now)
    else At(ForeverOf(cfg, s.forever, c, s.now), s.now) == cfg.Cap()
  }

  ghost predicate HeldGood(s: Tier, h: Held) {
    && h.at <= s.now
    && (h.target.Own? ==>
          && h.client in s.visitors && s.visitors[h.client].limiter == h.target.id
          && h.at <= s.visitors[h.client].lastSeen)
  }

  ghost predicate Inv(cfg: Config, s: Tier, lag: real) {
    && BucketsGood(cfg, s)
    && TableGood(cfg, s, lag)
    && (forall c :: Remembers(cfg, s, c))
    && (forall r | r in s.held :: HeldGood(s, s.held[r]))
  }

  lemma FullIsGood(cfg: Config, t: real)
    ensures Good(cfg, Full(cfg.rate, cfg.Cap(), t), t) <==> cfg.rate >= 0.0
    ensures At(Full(cfg.rate, cfg.Cap(), t), t) == cfg.Cap()
  {
    assert Gain(cfg.rate, 0.0) == 0.0;
  }

  lemma StartInv(cfg: Config, t0: real, lag: real)
    requires cfg.Positive()
    ensures Inv(cfg, Start(cfg, t0), lag)
  {
    FullIsGood(cfg, t0);
  }

  lemma TimePasses(cfg: Config, s: Tier, lag: real, t: real)
    requires cfg.Positive() && Inv(cfg, s, lag) && s.now <= t
    ensures Inv(cfg, s.(now := t), lag)
  {
    forall c ensures Remembers(cfg, s.(now := t), c) {
      RemembersLater(cfg, s, c, t);
    }
  }

  lemma RemembersLater(cfg: Config, s: Tier, c: string, t: real)
    requires cfg.Positive() && BucketsGood(cfg, s) && Remembers(cfg, s, c) && s.now <= t
    ensures Remembers(cfg, s.(now := t), c)
  {
    var b, b' := ForeverOf(cfg, s.forever, c, s.now), ForeverOf(cfg, s.forever, c, t);
    FullIsGood(cfg, s.now);
    FullIsGood(cfg, t);
    if c in s.visitors {
      SameLater(s.buckets[s.visitors[c].limiter], b, s.now, t);
      if c !in s.forever { FullStaysFull(b, s.now, t); }
    } else if c in s.forever {
      FullStaysFull(b, s.now, t);
    }
  }

  lemma FewerVisitors(cfg: Config, s: Tier)
    ensures |Sweep(cfg, s).visitors| <= |s.visitors|
  {
    var kept := Sweep(cfg, s).visitors;
    SubsetSize(kept.Keys, s.visitors.Keys);
    assert |kept.Keys| == |kept| && |s.visitors.Keys| == |s.visitors|;
  }

  lemma SweptRemembers(cfg: Config, s: Tier, lag: real, c: string)
    requires RefillsInTime(cfg, lag) && BucketsGood(cfg, s) && TableGood(cfg, s, lag) && Remembers(cfg, s, c)
    ensures Remembers(cfg, Sweep(cfg, s), c)
  {
    LagBelowTtl(cfg, lag);
    if c in s.visitors && c !in Sweep(cfg, s).visitors {
      assert SeatGood(s, s.visitors[c], lag);
      FullWhenIdle(s.buckets[s.visitors[c].limiter], s.now, cfg.ttl - lag);
    }
  }

  lemma SweptTable(cfg: Config, s: Tier, lag: real)
    requires TableGood(cfg, s, lag)
    ensures TableGood(cfg, Sweep(cfg, s), lag)
  {
    var s' := Sweep(cfg, s);
    FewerVisitors(cfg, s);
    forall c | c in s'.visitors ensures SeatGood(s', s'.visitors[c], lag) {
      assert SeatGood(s, s.visitors[c], lag);
    }
  }

  lemma SweptHeld(cfg: Config, s: Tier, lag: real, r: nat)
    requires RefillsInTime(cfg, lag) && Timely(s, lag, s.now) && r in s.held && HeldGood(s, s.held[r])
    ensures HeldGood(Sweep(cfg, s), s.held[r])
  {
    LagBelowTtl(cfg, lag);
  }

  /** The sweep forgets only clients whose bucket is full and that nobody is about to ask. */
  lemma SweepInv(cfg: Config, s: Tier, lag: real)
    requires RefillsInTime(cfg, lag) && Inv(cfg, s, lag) && Timely(s, lag, s.now)
    ensures Inv(cfg, Sweep(cfg, s), lag)
  {
    var s' := Sweep(cfg, s);
    assert BucketsGood(cfg, s') && s'.held == s.held;
    hide BucketsGood, TableGood, Remembers, HeldGood, Sweep, RefillsInTime, Timely;
    SweptTable(cfg, s, lag);
    forall c ensures Remembers(cfg, s', c) { SweptRemembers(cfg, s, lag, c); }
    forall r | r in s'.held ensures HeldGood(s', s'.held[r]) { SweptHeld(cfg, s, lag, r); }
  }

  lemma KnownTable(cfg: Config, s: Tier, lag: real, req: nat, client: string)
    requires lag >= 0.0 && TableGood(cfg, s, lag) && client in s.visitors
    ensures TableGood(cfg, Grant(cfg, s, req, client), lag)
  {
    var s' := Grant(cfg, s, req, client);
    assert SeatGood(s, s.visitors[client], lag);
    assert s'.visitors.Keys == s.visitors.Keys && |s'.visitors| == |s'.visitors.Keys|
      && |s.visitors| == |s.visitors.Keys|;
    assert forall c | c in s'.visitors :: s'.visitors[c].limiter == s.visitors[c].limiter;
  }

  lemma KnownRemembers(cfg: Config, s: Tier, req: nat, client: string, c: string)
    requires Remembers(cfg, s, c) && client in s.visitors
    ensures Remembers(cfg, Grant(cfg, s, req, client), c)
  {
    hide ForeverOf, Same;
  }

  lemma KnownClient(cfg: Config, s: Tier, lag: real, req: nat, client: string)
    requires cfg.Positive() && lag >= 0.0 && Inv(cfg, s, lag) && client in s.visitors
    ensures Inv(cfg, Grant(cfg, s, req, client), lag)
  {
    var s' := Grant(cfg, s, req, client);
    KnownTable(cfg, s, lag, req, client);
    forall c ensures Remembers(cfg, s', c) { KnownRemembers(cfg, s, req, client, c); }
    assert SeatGood(s, s.visitors[client], lag);
    hide TableGood, Remembers, Good;
    GrantHeld(s, s', req);
  }

  /** Requests that were waiting keep their seats; the new one gets its own. */
  lemma GrantHeld(s: Tier, s': Tier, req: nat)
    requires s'.now == s.now && s'.held.Keys == s.held.Keys + {req}
    requires forall r | r in s.held && r != req :: s'.held[r] == s.held[r] && HeldGood(s, s.held[r])
    requires forall c | c in s.visitors ::
               c in s'.visitors && s'.visitors[c].limiter == s.visitors[c].limiter
               && s.visitors[c].lastSeen <= s'.visitors[c].lastSeen
    requires HeldGood(s', s'.held[req])
    ensures forall r | r in s'.held :: HeldGood(s', s'.held[r])
  {
    forall r | r in s'.held ensures HeldGood(s', s'.held[r]) {
      if r != req { assert HeldGood(s, s.held[r]); }
    }
  }

  lemma NewClient(cfg: Config, s: Tier, lag: real, req: nat, client: string)
    requires cfg.Positive() && lag >= 0.0 && Inv(cfg, s, lag)
    requires client !in s.visitors && |s.visitors| < cfg.maxClients
    ensures Inv(cfg, Grant(cfg, s, req, client), lag)
  {
    NewBucket(cfg, s, req, client);
    NewSeat(cfg, s, lag, req, client);
    forall c ensures Remembers(cfg, Grant(cfg, s, req, client), c) {
      NewClientRemembers(cfg, s, req, client, c);
    }
    NewHeld(cfg, s, req, client);
  }

  lemma NewBucket(cfg: Config, s: Tier, req: nat, client: string)
    requires cfg.Positive() && BucketsGood(cfg, s) && client !in s.visitors && |s.visitors| < cfg.maxClients
    ensures BucketsGood(cfg, Grant(cfg, s, req, client))
  {
    FullIsGood(cfg, s.now);
  }

  lemma NewHeld(cfg: Config, s: Tier, req: nat, client: string)
    requires client !in s.visitors && |s.visitors| < cfg.maxClients
    requires forall r | r in s.held :: HeldGood(s, s.held[r])
    ensures var s' := Grant(cfg, s, req, client); forall r | r in s'.held :: HeldGood(s', s'.held[r])
  {
    var s' := Grant(cfg, s, req, client);
    assert s'.visitors == s.visitors[client := Visitor(|s.buckets|, s.now)];
    assert s'.held == s.held[req := Held(client, Own(|s.buckets|), s.now)] && s'.now == s.now;
    assert HeldGood(s', s'.held[req]);
    forall r | r in s'.held ensures HeldGood(s', s'.held[r]) {
      if r != req { assert HeldGood(s, s.held[r]); }
    }
  }

  lemma NewClientRemembers(cfg: Config, s: Tier, req: nat, client: string, c: string)
    requires Remembers(cfg, s, c) && BucketsGood(cfg, s)
    requires client !in s.visitors && |s.visitors| < cfg.maxClients
    ensures Remembers(cfg, Grant(cfg, s, req, client), c)
  {
    FullIsGood(cfg, s.now);
  }

  lemma NewSeat(cfg: Config, s: Tier, lag: real, req: nat, client: string)
    requires cfg.Positive() && lag >= 0.0 && TableGood(cfg, s, lag)
    requires client !in s.visitors && |s.visitors| < cfg.maxClients
    ensures TableGood(cfg, Grant(cfg, s, req, client), lag)
  {
    var s' := Grant(cfg, s, req, client);
    assert |s'.visitors| <= cfg.maxClients by {
      assert s'.visitors.Keys == s.visitors.Keys + {client};
      assert |s'.visitors| == |s'.visitors.Keys| && |s.visitors| == |s.visitors.Keys|;
    }
    assert s'.visitors == s.visitors[client := Visitor(|s.buckets|, s.now)];
    assert s'.buckets == s.buckets + [Full(cfg.rate, cfg.Cap(), s.now)] && s'.now == s.now;
    forall c | c in s'.visitors ensures SeatGood(s', s'.visitors[c], lag) {
      if c != client { assert SeatGood(s, s.visitors[c], lag); }
    }
    forall c | c in s.visitors ensures s.visitors[c].limiter < |s.buckets| {
      assert SeatGood(s, s.visitors[c], lag);
    }
  }

  lemma GrantInv(cfg: Config, s: Tier, lag: real, req: nat, client: string)
    requires cfg.Positive() && lag >= 0.0 && Inv(cfg, s, lag)
    ensures Inv(cfg, Grant(cfg, s, req, client), lag)
  {
    if client in s.visitors {
      KnownClient(cfg, s, lag, req, client);
    } else if |s.visitors| < cfg.maxClients {
      NewClient(cfg, s, lag, req, client);
    } else {
      var s' := Grant(cfg, s, req, client);
      forall c ensures Remembers(cfg, s', c) { assert Remembers(cfg, s, c); }
      forall r | r in s'.held ensures HeldGood(s', s'.held[r]) {
        if r != req { assert HeldGood(s, s.held[r]); }
      }
    }
  }

  /** A client that holds its own bucket is answered as if it had never been forgotten. */
  lemma OwnAnswer(cfg: Config, s: Tier, lag: real, req: nat)
    requires cfg.Positive() && Inv(cfg, s, lag) && req in s.held && s.held[req].target.Own?
    ensures var h := s.held[req];
            h.target.id < |s.buckets|
            && Admits(s.buckets[h.target.id], s.now) == Admits(ForeverOf(cfg, s.forever, h.client, s.now), s.now)
            && Good(cfg, ForeverOf(cfg, s.forever, h.client, s.now), s.now)
            && Same(Take(s.buckets[h.target.id], s.now), Take(ForeverOf(cfg, s.forever, h.client, s.now), s.now), s.now)
  {
    var h := s.held[req];
    assert HeldGood(s, h);
    assert Remembers(cfg, s, h.client);
    FullIsGood(cfg, s.now);
    SameTake(s.buckets[h.target.id], ForeverOf(cfg, s.forever, h.client, s.now), s.now);
  }

  /** What `Answer` does when the client's own bucket is asked. */
  lemma OwnAnswerShape(cfg: Config, s: Tier, req: nat)
    requires req in s.held && s.held[req].target.Own? && s.held[req].target.id < |s.buckets|
    ensures var (h, s') := (s.held[req], Answer(cfg, s, req));
            && s'.now == s.now && s'.visitors == s.visitors && s'.shared == s.shared
            && s'.buckets == s.buckets[h.target.id := Take(s.buckets[h.target.id], s.now)]
            && s'.forever == s.forever[h.client := Take(ForeverOf(cfg, s.forever, h.client, s.now), s.now)]
            && s'.held == s.held - {req}
  {
    hide Take, Admits, ForeverOf;
  }

  lemma OwnAnswerTable(cfg: Config, s: Tier, lag: real, req: nat)
    requires TableGood(cfg, s, lag) && Timely(s, lag, s.now) && req in s.held && s.held[req].target.Own?
    requires HeldGood(s, s.held[req])
    ensures TableGood(cfg, Answer(cfg, s, req), lag)
  {
    var h, s' := s.held[req], Answer(cfg, s, req);
    assert SeatGood(s, s.visitors[h.client], lag);
    OwnAnswerShape(cfg, s, req);
    var b := s.buckets[h.target.id];
    assert Take(b, s.now).last <= h.at + lag || Take(b, s.now) == b;
    hide Answer, Take;
    forall c | c in s'.visitors ensures SeatGood(s', s'.visitors[c], lag) {
      assert SeatGood(s, s.visitors[c], lag);
    }
  }

  lemma OwnAnswerRemembers(cfg: Config, s: Tier, lag: real, req: nat, c: string)
    requires cfg.Positive() && Inv(cfg, s, lag) && req in s.held && s.held[req].target.Own?
    ensures Remembers(cfg, Answer(cfg, s, req), c)
  {
    var h := s.held[req];
    assert HeldGood(s, h) && Remembers(cfg, s, c) && Remembers(cfg, s, h.client);
    assert SeatGood(s, s.visitors[h.client], lag);
    OwnAnswer(cfg, s, lag, req);
    OwnAnswerShape(cfg, s, req);
    hide Answer, Take, Same, At, Good;
  }

  lemma OwnAnswerInv(cfg: Config, s: Tier, lag: real, req: nat)
    requires cfg.Positive() && Inv(cfg, s, lag) && Timely(s, lag, s.now) && req in s.held && s.held[req].target.Own?
    ensures Inv(cfg, Answer(cfg, s, req), lag)
  {
    var h, s' := s.held[req], Answer(cfg, s, req);
    OwnAnswer(cfg, s, lag, req);
    OwnAnswerShape(cfg, s, req);
    OwnAnswerTable(cfg, s, lag, req);
    TakeValid(s.buckets[h.target.id], s.now);
    TakeValid(ForeverOf(cfg, s.forever, h.client, s.now), s.now);
    hide Answer, Take, TableGood, Remembers, ForeverOf, Timely, Same, Admits;
    assert BucketsGood(cfg, s');
    forall c ensures Remembers(cfg, s', c) { OwnAnswerRemembers(cfg, s, lag, req, c); }
    forall r | r in s'.held ensures HeldGood(s', s'.held[r]) { assert HeldGood(s, s.held[r]); }
  }

  lemma SharedAnswerInv(cfg: Config, s: Tier, lag: real, req: nat)
    requires cfg.Positive() && Inv(cfg, s, lag) && req in s.held && s.held[req].target.Shared?
    ensures Inv(cfg, Answer(cfg, s, req), lag)
  {
    var s' := Answer(cfg, s, req);
    TakeValid(s.shared, s.now);
    forall c | c in s'.visitors ensures SeatGood(s', s'.visitors[c], lag) {
      assert SeatGood(s, s.visitors[c], lag);
    }
    forall c ensures Remembers(cfg, s', c) { assert Remembers(cfg, s, c); }
    forall r | r in s'.held ensures HeldGood(s', s'.held[r]) { assert HeldGood(s, s.held[r]); }
  }

  lemma StepInv(cfg: Config, s: Tier, lag: real, ev: Event)
    requires RefillsInTime(cfg, lag) && Inv(cfg, s, lag) && Enabled(s, lag, ev)
    ensures Inv(cfg, Step(cfg, s, ev), lag)
  {
    TimePasses(cfg, s, lag, ev.t);
    match ev
    case Acquire(req, client, t) =>
      SweepInv(cfg, s.(now := t), lag);
      GrantInv(cfg, Sweep(cfg, s.(now := t)), lag, req, client);
    case Decide(req, t) =>
      if s.held[req].target.Own? {
        OwnAnswerInv(cfg, s.(now := t), lag, req);
      } else {
        SharedAnswerInv(cfg, s.(now := t), lag, req);
      }
  }

  lemma {:induction false} RunInv(cfg: Config, t0: real, lag: real, evs: seq<Event>)
    requires RefillsInTime(cfg, lag) && Legal(cfg, t0, lag, evs)
    ensures Inv(cfg, After(cfg, t0, evs), lag)
  {
    if evs == [] {
      StartInv(cfg, t0, lag);
    } else {
      var n := |evs| - 1;
      RunInv(cfg, t0, lag, evs[..n]);
      StepInv(cfg, After(cfg, t0, evs[..n]), lag, evs[n]);
    }
  }

  lemma GrantBounded(cfg: Config, s: Tier, req: nat, client: string)
    requires |s.visitors| <= cfg.maxClients
    ensures |Grant(cfg, s, req, client).visitors| <= cfg.maxClients
  {
    var after := Grant(cfg, s, req, client).visitors;
    assert after.Keys == s.visitors.Keys || after.Keys == s.visitors.Keys + {client};
    assert |after.Keys| == |after| && |s.visitors.Keys| == |s.visitors|;
  }

  /** The table never holds more than `maxClients` clients, whatever the rates, the time to live and the clock. */
  lemma {:induction false} TableBounded(cfg: Config, t0: real, evs: seq<Event>)
    ensures |After(cfg, t0, evs).visitors| <= cfg.maxClients
  {
    if evs != [] {
      var s, ev := After(cfg, t0, evs[..|evs| - 1]), evs[|evs| - 1];
      TableBounded(cfg, t0, evs[..|evs| - 1]);
      if ev.Acquire? {
        FewerVisitors(cfg, s.(now := ev.t));
        GrantBounded(cfg, Sweep(cfg, s.(now := ev.t)), ev.req, ev.client);
      }
    }
  }

  // ----- forgetting is invisible -----

  /** The same requests against a table that is never swept and never full. */
  datatype Unbounded = Unbounded(held: map<nat, string>, forever: map<string, Bucket>)

  function UnboundedStep(cfg: Config, u: Unbounded, ev: Event): Unbounded {
    match ev
    case Acquire(req, client, _) => u.(held := u.held[req := client])
    case Decide(req, t) =>
      if req in u.held then
        var b := ForeverOf(cfg, u.forever, u.held[req], t);
        Unbounded(u.held - {req}, u.forever[u.held[req] := Take(b, t)])
      else u
  }

  function UnboundedAfter(cfg: Config, evs: seq<Event>): Unbounded {
    if evs == [] then Unbounded(map[], map[])
    else UnboundedStep(cfg, UnboundedAfter(cfg, evs[..|evs| - 1]), evs[|evs| - 1])
  }

  predicate UnboundedAdmits(cfg: Config, u: Unbounded, req: nat, t: real)
    requires req in u.held
  {
    Admits(ForeverOf(cfg, u.forever, u.held[req], t), t)
  }

  /** No request so far was sent to the overflow bucket. */
  ghost predicate NeverFull(cfg: Config, t0: real, evs: seq<Event>) {
    && (forall r | r in After(cfg, t0, evs).held :: After(cfg, t0, evs).held[r].target.Own?)
    && (evs != [] ==> NeverFull(cfg, t0, evs[..|evs| - 1]))
  }

  ghost predicate Tracks(u: Unbounded, s: Tier) {
    && u.forever == s.forever
    && u.held.Keys == s.held.Keys
    && forall r | r in s.held :: u.held[r] == s.held[r].client && s.held[r].target.Own?
  }

  lemma GrantShape(cfg: Config, s: Tier, req: nat, client: string)
    ensures Grant(cfg, s, req, client).forever == s.forever && Sweep(cfg, s).forever == s.forever
    ensures Sweep(cfg, s).held == s.held
    ensures req in Grant(cfg, s, req, client).held && Grant(cfg, s, req, client).held[req].client == client
    ensures Grant(cfg, s, req, client).held == s.held[req := Grant(cfg, s, req, client).held[req]]
  {
  }

  lemma TracksAcquire(cfg: Config, s: Tier, u: Unbounded, ev: Event)
    requires Tracks(u, s) && ev.Acquire? && ev.req !in s.held
    requires ev.req in Step(cfg, s, ev).held && Step(cfg, s, ev).held[ev.req].target.Own?
    ensures Tracks(UnboundedStep(cfg, u, ev), Step(cfg, s, ev))
  {
    GrantShape(cfg, s.(now := ev.t), ev.req, ev.client);
    GrantShape(cfg, Sweep(cfg, s.(now := ev.t)), ev.req, ev.client);
  }

  lemma TracksDecide(cfg: Config, s: Tier, u: Unbounded, ev: Event)
    requires Tracks(u, s) && ev.Decide? && ev.req in s.held
    requires s.held[ev.req].target.id < |s.buckets|
    ensures Tracks(UnboundedStep(cfg, u, ev), Step(cfg, s, ev))
  {
  }

  lemma {:induction false} TracksUnbounded(cfg: Config, t0: real, lag: real, evs: seq<Event>)
    requires RefillsInTime(cfg, lag) && Legal(cfg, t0, lag, evs) && NeverFull(cfg, t0, evs)
    ensures Tracks(UnboundedAfter(cfg, evs), After(cfg, t0, evs))
  {
    if evs != [] {
      var n := |evs| - 1;
      TracksUnbounded(cfg, t0, lag, evs[..n]);
      RunInv(cfg, t0, lag, evs[..n]);
      var s, u := After(cfg, t0, evs[..n]), UnboundedAfter(cfg, evs[..n]);
      match evs[n]
      case Acquire(req, client, t) =>
        GrantShape(cfg, Sweep(cfg, s.(now := t)), req, client);
        assert After(cfg, t0, evs).held[req].target.Own?;
        TracksAcquire(cfg, s, u, evs[n]);
      case Decide(req, t) =>
        assert s.held[req].target.Own?;
        TimePasses(cfg, s, lag, t);
        OwnAnswer(cfg, s.(now := t), lag, req);
        TracksDecide(cfg, s, u, evs[n]);
    }
  }

  /**
   As long as the table is never full, every answer is the one an unbounded table that keeps
   every client for ever would give, whenever the sweeps happen to run.
  */
  lemma ForgettingIsInvisible(cfg: Config, t0: real, lag: real, evs: seq<Event>, req: nat, t: real)
    requires RefillsInTime(cfg, lag) && Legal(cfg, t0, lag, evs) && NeverFull(cfg, t0, evs)
    requires Enabled(After(cfg, t0, evs), lag, Decide(req, t))
    ensures req in UnboundedAfter(cfg, evs).held
    ensures Admitted(After(cfg, t0, evs).(now := t), req) == UnboundedAdmits(cfg, UnboundedAfter(cfg, evs), req, t)
  {
    var s := After(cfg, t0, evs);
    TracksUnbounded(cfg, t0, lag, evs);
    RunInv(cfg, t0, lag, evs);
    TimePasses(cfg, s, lag, t);
    assert s.held[req].target.Own?;
    OwnAnswer(cfg, s.(now := t), lag, req);
  }

  // ----- how much a client can get in a window -----

  /** The requests of `client` admitted by its own bucket in [a, e]. */
  ghost function OwnWindow(admitted: map<nat, Admission>, client: string, a: real, e: real): set<nat> {
    set r | r in admitted && admitted[r].client == client && !admitted[r].shared && a <= admitted[r].at <= e
  }

  /** The requests of all clients admitted by the overflow bucket in [a, e]. */
  ghost function SharedWindow(admitted: map<nat, Admission>, a: real, e: real): set<nat> {
    set r | r in admitted && admitted[r].shared && a <= admitted[r].at <= e
  }

  ghost function ClientWindow(admitted: map<nat, Admission>, client: string, a: real, e: real): set<nat> {
    set r | r in admitted && admitted[r].client == client && a <= admitted[r].at <= e
  }

  ghost predicate Budgets(cfg: Config, s: Tier, c: string, a: real, e: real) {
    && Budget(ForeverOf(cfg, s.forever, c, s.now), |OwnWindow(s.admitted, c, a, e)|, a, e, s.now)
    && Budget(s.shared, |SharedWindow(s.admitted, a, e)|, a, e, s.now)
  }

  lemma BudgetsLater(cfg: Config, s: Tier, c: string, a: real, e: real, t: real)
    requires cfg.Positive() && BucketsGood(cfg, s) && Budgets(cfg, s, c, a, e) && s.now <= t
    ensures Budgets(cfg, s.(now := t), c, a, e)
  {
    FullIsGood(cfg, s.now);
    FullIsGood(cfg, t);
    var b := ForeverOf(cfg, s.forever, c, s.now);
    BudgetLater(b, |OwnWindow(s.admitted, c, a, e)|, a, e, s.now, t);
    BudgetLater(s.shared, |SharedWindow(s.admitted, a, e)|, a, e, s.now, t);
    if c !in s.forever {
      FullStaysFull(b, s.now, t);
      BudgetSame(b, Full(cfg.rate, cfg.Cap(), t), |OwnWindow(s.admitted, c, a, e)|, a, e, t);
    }
  }

  /** Recording one admission adds one request to the windows it falls into. */
  lemma OwnWindowGrows(admitted: map<nat, Admission>, req: nat, x: Admission, c: string, a: real, e: real)
    requires req !in admitted
    ensures |OwnWindow(admitted[req := x], c, a, e)|
         == |OwnWindow(admitted, c, a, e)| + if x.client == c && !x.shared && a <= x.at <= e then 1 else 0
  {
    OwnWindowWith(admitted, req, x, c, a, e);
    assert req !in OwnWindow(admitted, c, a, e);
    hide OwnWindow;
  }

  lemma OwnWindowWith(admitted: map<nat, Admission>, req: nat, x: Admission, c: string, a: real, e: real)
    requires req !in admitted
    ensures OwnWindow(admitted[req := x], c, a, e)
         == OwnWindow(admitted, c, a, e) + if x.client == c && !x.shared && a <= x.at <= e then {req} else {}
  {
  }

  lemma SharedWindowGrows(admitted: map<nat, Admission>, req: nat, x: Admission, a: real, e: real)
    requires req !in admitted
    ensures |SharedWindow(admitted[req := x], a, e)|
         == |SharedWindow(admitted, a, e)| + if x.shared && a <= x.at <= e then 1 else 0
  {
    SharedWindowWith(admitted, req, x, a, e);
    assert req !in SharedWindow(admitted, a, e);
    hide SharedWindow;
  }

  lemma SharedWindowWith(admitted: map<nat, Admission>, req: nat, x: Admission, a: real, e: real)
    requires req !in admitted
    ensures SharedWindow(admitted[req := x], a, e)
         == SharedWindow(admitted, a, e) + if x.shared && a <= x.at <= e then {req} else {}
  {
  }

  lemma AnswerOwnBudget(cfg: Config, s: Tier, lag: real, req: nat, c: string, a: real, e: real)
    requires cfg.Positive() && Inv(cfg, s, lag) && Budgets(cfg, s, c, a, e)
    requires req in s.held && req !in s.admitted && s.held[req].target.Own?
    ensures Budgets(cfg, Answer(cfg, s, req), c, a, e)
  {
    var h := s.held[req];
    OwnWindowGrows(s.admitted, req, Admission(h.client, false, s.now), c, a, e);
    SharedWindowGrows(s.admitted, req, Admission(h.client, false, s.now), a, e);
    OwnAnswer(cfg, s, lag, req);
    OwnAnswerShape(cfg, s, req);
    if h.client == c {
      BudgetTake(ForeverOf(cfg, s.forever, c, s.now), |OwnWindow(s.admitted, c, a, e)|, a, e, s.now);
    }
    hide Take, Budget, OwnWindow, SharedWindow, Inv, Good, Same, Admits;
  }

  lemma AnswerSharedBudget(cfg: Config, s: Tier, req: nat, c: string, a: real, e: real)
    requires cfg.Positive() && BucketsGood(cfg, s) && Budgets(cfg, s, c, a, e)
    requires req in s.held && req !in s.admitted && s.held[req].target.Shared?
    ensures Budgets(cfg, Answer(cfg, s, req), c, a, e)
  {
    var h := s.held[req];
    OwnWindowGrows(s.admitted, req, Admission(h.client, true, s.now), c, a, e);
    SharedWindowGrows(s.admitted, req, Admission(h.client, true, s.now), a, e);
    BudgetTake(s.shared, |SharedWindow(s.admitted, a, e)|, a, e, s.now);
    hide Take, Budget, OwnWindow, SharedWindow, BucketsGood, Admits;
  }

  lemma AnswerBudgets(cfg: Config, s: Tier, lag: real, req: nat, c: string, a: real, e: real)
    requires cfg.Positive() && Inv(cfg, s, lag) && Budgets(cfg, s, c, a, e)
    requires req in s.held && req !in s.admitted
    ensures Budgets(cfg, Answer(cfg, s, req), c, a, e)
  {
    hide Answer, Budgets;
    if s.held[req].target.Own? {
      AnswerOwnBudget(cfg, s, lag, req, c, a, e);
    } else {
      AnswerSharedBudget(cfg, s, req, c, a, e);
    }
  }

  /** A request is held or decided, never both. */
  lemma {:induction false} HeldNotAdmitted(cfg: Config, t0: real, lag: real, evs: seq<Event>)
    requires Legal(cfg, t0, lag, evs)
    ensures forall r | r in After(cfg, t0, evs).held :: r !in After(cfg, t0, evs).admitted
  {
    if evs != [] {
      HeldNotAdmitted(cfg, t0, lag, evs[..|evs| - 1]);
    }
  }

  lemma {:induction false} RunBudgets(cfg: Config, t0: real, lag: real, evs: seq<Event>, c: string, a: real, e: real)
    requires RefillsInTime(cfg, lag) && Legal(cfg, t0, lag, evs)
    ensures Budgets(cfg, After(cfg, t0, evs), c, a, e)
  {
    if evs == [] {
      FullIsGood(cfg, t0);
      BudgetStart(Full(cfg.rate, cfg.Cap(), t0), a, e, t0);
      assert OwnWindow(map[], c, a, e) == {} && SharedWindow(map[], a, e) == {};
    } else {
      var n := |evs| - 1;
      var s, ev := After(cfg, t0, evs[..n]), evs[n];
      RunBudgets(cfg, t0, lag, evs[..n], c, a, e);
      RunInv(cfg, t0, lag, evs[..n]);
      TimePasses(cfg, s, lag, ev.t);
      BudgetsLater(cfg, s, c, a, e, ev.t);
      if ev.Decide? {
        HeldNotAdmitted(cfg, t0, lag, evs[..n]);
        AnswerBudgets(cfg, s.(now := ev.t), lag, ev.req, c, a, e);
      }
    }
  }

  /**
   Whatever the history (full table, overflow, forgetting, readmission), a client gets at most
   twice what one bucket allows in any window: once from its own bucket, once from the overflow.
  */
  lemma ClientBound(cfg: Config, t0: real, lag: real, evs: seq<Event>, c: string, a: real, e: real)
    requires RefillsInTime(cfg, lag) && Legal(cfg, t0, lag, evs) && a <= e
    ensures |ClientWindow(After(cfg, t0, evs).admitted, c, a, e)| as real <= 2.0 * (cfg.Cap() + Gain(cfg.rate, e - a))
  {
    var s := After(cfg, t0, evs);
    RunInv(cfg, t0, lag, evs);
    RunBudgets(cfg, t0, lag, evs, c, a, e);
    FullIsGood(cfg, s.now);
    var own, shared := OwnWindow(s.admitted, c, a, e), SharedWindow(s.admitted, a, e);
    WithinBudget(ForeverOf(cfg, s.forever, c, s.now), |own|, a, e, s.now);
    WithinBudget(s.shared, |shared|, a, e, s.now);
    SubsetSize(ClientWindow(s.admitted, c, a, e), own + shared);
    assert |own + shared| <= |own| + |shared|;
  }
}
