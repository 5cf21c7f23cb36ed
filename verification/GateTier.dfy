/**
 The global bucket in front of the client table: every admitted request has spent a
 global token, so the global budget bounds all traffic whatever the clients do.
*/
module GateTier {
  import opened Wrappers
  import opened TokenBucket
  import opened ClientTier

  /** `gates[r]` is the time request `r` got its global token. */
  datatype Limiter = Limiter(global: Bucket, gates: seq<real>, tier: Tier)

  datatype Arrival = Gate(t: real) | Inner(ev: Event)

  function Begin(cfg: Config, globalRate: real, globalBurst: nat, t0: real): Limiter {
    Limiter(Full(globalRate, globalBurst as real, t0), [], Start(cfg, t0))
  }

  function Pass(cfg: Config, s: Limiter, x: Arrival): Limiter {
    match x
    case Gate(t) =>
      Limiter(Take(s.global, t), if Admits(s.global, t) then s.gates + [t] else s.gates, s.tier.(now := t))
    case Inner(ev) => s.(tier := Step(cfg, s.tier, ev))
  }

  /** Only requests past the gate reach the client table; the clock never goes back. */
  ghost predicate MayHappen(s: Limiter, x: Arrival) {
    match x
    case Gate(t) => s.tier.now <= t
    case Inner(Acquire(req, _, t)) => s.tier.now <= t && req < |s.gates|
    case Inner(Decide(req, t)) => s.tier.now <= t && req in s.tier.held
  }

  function AfterAll(cfg: Config, globalRate: real, globalBurst: nat, t0: real, xs: seq<Arrival>): Limiter {
    if xs == [] then Begin(cfg, globalRate, globalBurst, t0)
    else Pass(cfg, AfterAll(cfg, globalRate, globalBurst, t0, xs[..|xs| - 1]), xs[|xs| - 1])
  }

  ghost predicate History(cfg: Config, globalRate: real, globalBurst: nat, t0: real, xs: seq<Arrival>) {
    xs == [] ||
    (History(cfg, globalRate, globalBurst, t0, xs[..|xs| - 1])
     && MayHappen(AfterAll(cfg, globalRate, globalBurst, t0, xs[..|xs| - 1]), xs[|xs| - 1]))
  }

  /** The requests that passed the gate in [a, e]. */
  ghost function GateWindow(gates: seq<real>, a: real, e: real): set<nat> {
    set r: nat | r < |gates| && a <= gates[r] <= e
  }

  /** The admitted requests that passed the gate in [a, e]. */
  ghost function AdmittedWindow(s: Limiter, a: real, e: real): set<nat> {
    set r | r in s.tier.admitted && r < |s.gates| && a <= s.gates[r] <= e
  }

  /** The admitted requests that were decided in [a, e]. */
  ghost function DecidedWindow(s: Limiter, a: real, e: real): set<nat> {
    set r | r in s.tier.admitted && a <= s.tier.admitted[r].at <= e
  }

  ghost predicate RequestsGood(s: Limiter) {
    && (forall i | 0 <= i < |s.gates| :: s.gates[i] <= s.tier.now)
    && (forall r | r in s.tier.held :: r < |s.gates|)
    && (forall r | r in s.tier.admitted :: r < |s.gates| && s.gates[r] <= s.tier.admitted[r].at)
  }

  ghost predicate GateInv(s: Limiter, globalRate: real, globalBurst: nat, a: real, e: real) {
    && Valid(s.global, s.tier.now) && s.global.rate == globalRate && s.global.cap == globalBurst as real
    && Budget(s.global, |GateWindow(s.gates, a, e)|, a, e, s.tier.now)
    && RequestsGood(s)
  }

  lemma GateWindowGrows(gates: seq<real>, t: real, a: real, e: real)
    ensures |GateWindow(gates + [t], a, e)| == |GateWindow(gates, a, e)| + if a <= t <= e then 1 else 0
  {
    var before, after := GateWindow(gates, a, e), GateWindow(gates + [t], a, e);
    assert |gates| !in before;
    if a <= t <= e {
      assert after == before + {|gates|};
    } else {
      assert after == before;
    }
  }

  lemma InnerKeepsRequests(cfg: Config, s: Limiter, ev: Event)
    requires RequestsGood(s) && MayHappen(s, Inner(ev))
    ensures RequestsGood(Pass(cfg, s, Inner(ev))) && Pass(cfg, s, Inner(ev)).tier.now == ev.t
  {
  }

  lemma PassInv(cfg: Config, s: Limiter, x: Arrival, globalRate: real, globalBurst: nat, a: real, e: real)
    requires GateInv(s, globalRate, globalBurst, a, e) && MayHappen(s, x)
    ensures GateInv(Pass(cfg, s, x), globalRate, globalBurst, a, e)
  {
    var n := |GateWindow(s.gates, a, e)|;
    match x
    case Gate(t) =>
      BudgetLater(s.global, n, a, e, s.tier.now, t);
      BudgetTake(s.global, n, a, e, t);
      TakeValid(s.global, t);
      GateWindowGrows(s.gates, t, a, e);
    case Inner(ev) =>
      InnerKeepsRequests(cfg, s, ev);
      BudgetLater(s.global, n, a, e, s.tier.now, ev.t);
  }

  lemma {:induction false} HistoryInv(cfg: Config, globalRate: real, globalBurst: nat, t0: real, xs: seq<Arrival>,
                                      a: real, e: real)
    requires globalRate >= 0.0 && History(cfg, globalRate, globalBurst, t0, xs)
    ensures GateInv(AfterAll(cfg, globalRate, globalBurst, t0, xs), globalRate, globalBurst, a, e)
  {
    if xs == [] {
      var b := Full(globalRate, globalBurst as real, t0);
      assert Gain(globalRate, 0.0) == 0.0;
      BudgetStart(b, a, e, t0);
      assert GateWindow([], a, e) == {};
    } else {
      var n := |xs| - 1;
      HistoryInv(cfg, globalRate, globalBurst, t0, xs[..n], a, e);
      PassInv(cfg, AfterAll(cfg, globalRate, globalBurst, t0, xs[..n]), xs[n], globalRate, globalBurst, a, e);
    }
  }

  /** In every history, the admitted requests of any window fit the global budget. */
  lemma GlobalBound(cfg: Config, globalRate: real, globalBurst: nat, t0: real, xs: seq<Arrival>, a: real, e: real)
    requires globalRate >= 0.0 && History(cfg, globalRate, globalBurst, t0, xs) && a <= e
    ensures var s := AfterAll(cfg, globalRate, globalBurst, t0, xs);
            && |AdmittedWindow(s, a, e)| as real <= globalBurst as real + Gain(globalRate, e - a)
            && forall r | r in s.tier.admitted :: r < |s.gates|
  {
    var s := AfterAll(cfg, globalRate, globalBurst, t0, xs);
    HistoryInv(cfg, globalRate, globalBurst, t0, xs, a, e);
    WithinBudget(s.global, |GateWindow(s.gates, a, e)|, a, e, s.tier.now);
    SubsetSize(AdmittedWindow(s, a, e), GateWindow(s.gates, a, e));
  }

  /** Every admitted request is decided at most `delay` after it passed the gate. */
  ghost predicate Prompt(s: Limiter, delay: real) {
    forall r | r in s.tier.admitted && r < |s.gates| :: s.tier.admitted[r].at <= s.gates[r] + delay
  }

  /** Counted by decision instead: a decision at most `delay` after the gate widens the window by `delay`. */
  lemma GlobalBoundByDecision(cfg: Config, globalRate: real, globalBurst: nat, t0: real, xs: seq<Arrival>,
                              a: real, e: real, delay: real)
    requires globalRate >= 0.0 && History(cfg, globalRate, globalBurst, t0, xs) && a <= e && delay >= 0.0
    requires Prompt(AfterAll(cfg, globalRate, globalBurst, t0, xs), delay)
    ensures |DecidedWindow(AfterAll(cfg, globalRate, globalBurst, t0, xs), a, e)| as real
         <= globalBurst as real + Gain(globalRate, e - a + delay)
  {
    var s := AfterAll(cfg, globalRate, globalBurst, t0, xs);
    hide *;
    HistoryGood(cfg, globalRate, globalBurst, t0, xs);
    GlobalBound(cfg, globalRate, globalBurst, t0, xs, a - delay, e);
    DecidedWithin(s, a, e, delay);
    assert e - (a - delay) == e - a + delay;
  }

  lemma HistoryGood(cfg: Config, globalRate: real, globalBurst: nat, t0: real, xs: seq<Arrival>)
    requires globalRate >= 0.0 && History(cfg, globalRate, globalBurst, t0, xs)
    ensures RequestsGood(AfterAll(cfg, globalRate, globalBurst, t0, xs))
  {
    hide History, AfterAll, Budget, RequestsGood;
    HistoryInv(cfg, globalRate, globalBurst, t0, xs, t0, t0);
  }

  lemma DecidedWithin(s: Limiter, a: real, e: real, delay: real)
    requires RequestsGood(s) && Prompt(s, delay)
    ensures |DecidedWindow(s, a, e)| <= |AdmittedWindow(s, a - delay, e)|
  {
    SubsetSize(DecidedWindow(s, a, e), AdmittedWindow(s, a - delay, e));
  }
}
