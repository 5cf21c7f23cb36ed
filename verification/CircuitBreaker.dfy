/**
 The circuit breaker and the outcome classification of the two provider clients
 (pkg/binlist/client.go, pkg/handyapi/client.go). Times are in seconds.
*/
module CircuitBreaker {
  import opened Wrappers
  import opened TokenBucket

  const OPEN_FOR := 300.0
  const THRESHOLD := 3

  /** `openUntil == None` is Go's zero time. */
  datatype State = State(failures: int, openUntil: Option<real>)

  const CLOSED := State(0, None)

  predicate Open(s: State, now: real) { s.openUntil.Some? && now < s.openUntil.value }

  function Failed(s: State, now: real): State {
    if s.failures + 1 >= THRESHOLD then State(0, Some(now + OPEN_FOR)) else s.(failures := s.failures + 1)
  }

  // ----- the clients -----

  datatype Provider = Binlist | Handy

  datatype Body<R> = Unreadable | Malformed | Parsed(value: R, reportsSuccess: bool)

  /** What becomes of an admitted request; one that cannot be built is never sent. */
  datatype Reply<R> = NotBuilt | NoResponse | Response(status: int, body: Body<R>)

  datatype Outcome<+R> = Found(value: R) | NotFound | RateLimited | Unavailable

  datatype Record = Success | Failure | Nothing

  /** Which replies count for or against a provider, and what the caller gets. */
  function Classify<R>(p: Provider, reply: Reply<R>): (Record, Outcome<R>) {
    match reply
    case NotBuilt => (Nothing, Unavailable)
    case NoResponse => (Failure, Unavailable)
    case Response(status, body) =>
      if status == 404 then (Success, NotFound)
      else if status == 429 then (Failure, RateLimited)
      else if status != 200 then
        (if status >= 500 || (p.Handy? && (status == 401 || status == 403)) then Failure else Nothing, Unavailable)
      else
        match body
        case Unreadable => (Failure, Unavailable)
        case Malformed => (Failure, Unavailable)
        case Parsed(value, ok) => if p.Handy? && !ok then (Failure, Unavailable) else (Success, Found(value))
  }

  function Recorded(s: State, record: Record, now: real): State {
    match record
    case Success => CLOSED
    case Failure => Failed(s, now)
    case Nothing => s
  }

  datatype Verdict = Allowed | CircuitOpen | LocallyLimited

  class Client {
    const provider: Provider
    const limiter: Limiter
    var consecutiveFailures: int
    var openUntil: Option<real>

    constructor (provider: Provider, rate: real, burst: nat, now: real)
      ensures this.provider == provider && fresh(limiter)
      ensures limiter.bucket == Full(rate, burst as real, now) && Breaker() == CLOSED
    {
      this.provider := provider;
      limiter := new Limiter(rate, burst as real, now);
      consecutiveFailures := 0;
      openUntil := None;
    }

    function Breaker(): State
      reads this
    {
      State(consecutiveFailures, openUntil)
    }

    /** A refusal by the breaker spends no token of the limiter. */
    method AllowRequest(now: real) returns (v: Verdict)
      modifies limiter
      ensures Open(Breaker(), now) ==> v == CircuitOpen && limiter.bucket == old(limiter.bucket)
      ensures !Open(Breaker(), now) ==>
                && v == (if Admits(old(limiter.bucket), now) then Allowed else LocallyLimited)
                && limiter.bucket == Take(old(limiter.bucket), now)
    {
      if openUntil.Some? && now < openUntil.value {
        return CircuitOpen;
      }
      var ok := limiter.Allow(now);
      return if ok then Allowed else LocallyLimited;
    }

    method RecordFailure(now: real)
      modifies this
      ensures Breaker() == Failed(old(Breaker()), now)
    {
      consecutiveFailures := consecutiveFailures + 1;
      if consecutiveFailures >= 3 {
        openUntil := Some(now + OPEN_FOR);
        consecutiveFailures := 0;
      }
    }

    method RecordSuccess()
      modifies this
      ensures Breaker() == CLOSED
    {
      consecutiveFailures := 0;
      openUntil := None;
    }

    /** One provider lookup; `called` says whether the breaker and the limiter admitted it. */
    method Lookup<R>(askNow: real, reply: Reply<R>, doneNow: real) returns (called: bool, outcome: Outcome<R>)
      modifies this, limiter
      ensures called == (!Open(old(Breaker()), askNow) && Admits(old(limiter.bucket), askNow))
      ensures limiter.bucket == if Open(old(Breaker()), askNow) then old(limiter.bucket)
                                else Take(old(limiter.bucket), askNow)
      ensures called ==> outcome == Classify(provider, reply).1
                         && Breaker() == Recorded(old(Breaker()), Classify(provider, reply).0, doneNow)
      ensures called && reply.Response? && reply.status == 404 ==> outcome == NotFound && Breaker() == CLOSED
      ensures called && reply.Response? && reply.status == 429 ==>
                outcome == RateLimited && Breaker() == Failed(old(Breaker()), doneNow)
      ensures called && reply.Response? && reply.status !in {200, 404, 429} ==>
                && outcome == Unavailable
                && Breaker() == if reply.status >= 500 || (provider.Handy? && reply.status in {401, 403})
                                then Failed(old(Breaker()), doneNow) else old(Breaker())
      ensures called && reply.Response? && reply.status == 200 ==>
                if reply.body.Parsed? && (provider.Binlist? || reply.body.reportsSuccess) then
                  outcome == Found(reply.body.value) && Breaker() == CLOSED
                else
                  outcome == Unavailable && Breaker() == Failed(old(Breaker()), doneNow)
      ensures called && reply.NoResponse? ==> outcome == Unavailable && Breaker() == Failed(old(Breaker()), doneNow)
      ensures called && reply.NotBuilt? ==> outcome == Unavailable && Breaker() == old(Breaker())
      ensures !called ==> Breaker() == old(Breaker())
                          && outcome == (if Open(old(Breaker()), askNow) then Unavailable else RateLimited)
    {
      var v := AllowRequest(askNow);
      if v == CircuitOpen {
        return false, Unavailable;
      }
      if v == LocallyLimited {
        return false, RateLimited;
      }
      called := true;
      match reply {
        case NotBuilt =>
          outcome := Unavailable;
        case NoResponse =>
          RecordFailure(doneNow);
          outcome := Unavailable;
        case Response(status, body) =>
          if status == 404 {
            RecordSuccess();
            return true, NotFound;
          }
          if status == 429 {
            RecordFailure(doneNow);
            return true, RateLimited;
          }
          if status != 200 {
            if status >= 500 || (provider == Handy && (status == 401 || status == 403)) {
              RecordFailure(doneNow);
            }
            return true, Unavailable;
          }
          if body.Parsed? && (provider == Binlist || body.reportsSuccess) {
            RecordSuccess();
            return true, Found(body.value);
          }
          RecordFailure(doneNow);
          outcome := Unavailable;
      }
    }
  }

  // ----- histories -----

  /** What calls record, in the order in which they take the mutex. */
  datatype Event = Fail(t: real) | Succeed(t: real)

  function After(evs: seq<Event>): State {
    if evs == [] then CLOSED
    else
      var s, ev := After(evs[..|evs| - 1]), evs[|evs| - 1];
      if ev.Fail? then Failed(s, ev.t) else CLOSED
  }

  // ----- replies -----

  /** The provider works: it knows the BIN, or knows that it does not. */
  predicate Healthy<R>(p: Provider, reply: Reply<R>) {
    && reply.Response?
    && (reply.status == 404
        || (reply.status == 200 && reply.body.Parsed? && (p.Handy? ==> reply.body.reportsSuccess)))
  }

  /** The provider fails, is overloaded, or (Handy) refuses the key; or its answer cannot be used. */
  predicate Broken<R>(p: Provider, reply: Reply<R>) {
    match reply
    case NotBuilt => false
    case NoResponse => true
    case Response(status, body) =>
      || status == 429 || status >= 500
      || (p.Handy? && (status == 401 || status == 403))
      || (status == 200 && !Healthy(p, reply))
  }

  /** The breaker after replies, each recorded at its time. */
  function AfterReplies<R>(p: Provider, replies: seq<(Reply<R>, real)>): State {
    if replies == [] then CLOSED
    else
      var (reply, t) := replies[|replies| - 1];
      Recorded(AfterReplies(p, replies[..|replies| - 1]), Classify(p, reply).0, t)
  }

  /** The same as events: broken replies are failures, healthy ones successes, all others nothing. */
  function EventsOf<R>(p: Provider, replies: seq<(Reply<R>, real)>): seq<Event> {
    if replies == [] then []
    else
      var (reply, t) := replies[|replies| - 1];
      EventsOf(p, replies[..|replies| - 1])
      + if Broken(p, reply) then [Fail(t)] else if Healthy(p, reply) then [Succeed(t)] else []
  }

  /** What one reply does to the breaker. */
  lemma OneReply<R>(p: Provider, s: State, reply: Reply<R>, t: real)
    ensures Recorded(s, Classify(p, reply).0, t)
         == if Broken(p, reply) then Failed(s, t) else if Healthy(p, reply) then CLOSED else s
  {
  }

  lemma OneMoreReply<R>(p: Provider, replies: seq<(Reply<R>, real)>, reply: Reply<R>, t: real)
    ensures AfterReplies(p, replies + [(reply, t)])
         == if Broken(p, reply) then Failed(AfterReplies(p, replies), t)
            else if Healthy(p, reply) then CLOSED else AfterReplies(p, replies)
  {
    assert (replies + [(reply, t)])[..|replies|] == replies;
    OneReply(p, AfterReplies(p, replies), reply, t);
    hide Classify, Recorded, Broken, Healthy;
  }

  lemma OneMoreEvent(evs: seq<Event>, ev: Event)
    ensures After(evs + [ev]) == if ev.Fail? then Failed(After(evs), ev.t) else CLOSED
  {
    assert (evs + [ev])[..|evs|] == evs;
  }

  /** So all that is said about histories of failures and successes is said about replies. */
  lemma {:induction false} RepliesAreEvents<R>(p: Provider, replies: seq<(Reply<R>, real)>)
    ensures AfterReplies(p, replies) == After(EventsOf(p, replies))
  {
    hide Classify, Recorded, Broken, Healthy, After;
    if replies == [] {
      NoEvents();
    } else {
      var front, last := replies[..|replies| - 1], replies[|replies| - 1];
      assert replies == front + [last] && last == (last.0, last.1);
      RepliesAreEvents(p, front);
      OneMoreReply(p, front, last.0, last.1);
      OneMoreEvent(EventsOf(p, front), Fail(last.1));
      OneMoreEvent(EventsOf(p, front), Succeed(last.1));
      assert EventsOf(p, front) + [] == EventsOf(p, front);
      hide AfterReplies;
    }
  }

  lemma NoEvents()
    ensures After([]) == CLOSED
  {
  }

  /** However many BINs are unknown to a provider, that never opens its breaker. */
  lemma {:induction false} UnknownBinsKeepItClosed<R>(p: Provider, replies: seq<(Reply<R>, real)>)
    requires forall i | 0 <= i < |replies| :: replies[i].0.Response? && replies[i].0.status == 404
    ensures AfterReplies(p, replies) == CLOSED
  {
    if replies != [] {
      UnknownBinsKeepItClosed(p, replies[..|replies| - 1]);
    }
  }

  function BrokenCount<R>(p: Provider, replies: seq<(Reply<R>, real)>): nat {
    if replies == [] then 0
    else BrokenCount(p, replies[..|replies| - 1]) + if Broken(p, replies[|replies| - 1].0) then 1 else 0
  }

  /** With fewer than three broken replies it has never opened. */
  lemma {:induction false} TwoFailuresKeepItClosed<R>(p: Provider, replies: seq<(Reply<R>, real)>)
    requires BrokenCount(p, replies) < 3
    ensures AfterReplies(p, replies).openUntil.None? && AfterReplies(p, replies).failures <= BrokenCount(p, replies)
  {
    if replies != [] {
      TwoFailuresKeepItClosed(p, replies[..|replies| - 1]);
    }
  }

  /** Three broken replies in a row open a closed breaker, for five minutes after the third. */
  lemma ThreeFailuresOpenIt<R>(p: Provider, before: seq<(Reply<R>, real)>, a: Reply<R>, b: Reply<R>, c: Reply<R>,
                               ta: real, tb: real, tc: real)
    requires AfterReplies(p, before) == CLOSED && Broken(p, a) && Broken(p, b) && Broken(p, c)
    ensures AfterReplies(p, before + [(a, ta)] + [(b, tb)] + [(c, tc)]) == State(0, Some(tc + 300.0))
  {
    hide AfterReplies, Broken;
    OneMoreReply(p, before, a, ta);
    OneMoreReply(p, before + [(a, ta)], b, tb);
    OneMoreReply(p, before + [(a, ta)] + [(b, tb)], c, tc);
  }

  /** Failures since the latest success. */
  function FailuresSince(evs: seq<Event>): nat {
    if evs == [] || evs[|evs| - 1].Succeed? then 0 else FailuresSince(evs[..|evs| - 1]) + 1
  }

  /** The count is the number of failures in a row, in groups of three; so it is 0, 1 or 2. */
  lemma {:induction false} CountsInThrees(evs: seq<Event>)
    ensures After(evs).failures == FailuresSince(evs) % THRESHOLD
    ensures 0 <= After(evs).failures <= 2
  {
    if evs != [] {
      CountsInThrees(evs[..|evs| - 1]);
    }
  }

  /** Every third failure in a row opens the breaker. */
  ghost predicate Opens(evs: seq<Event>, i: int) {
    0 <= i < |evs| && evs[i].Fail? && FailuresSince(evs[..i + 1]) % THRESHOLD == 0
  }

  ghost predicate Timed(evs: seq<Event>) {
    forall i, j | 0 <= i <= j < |evs| :: evs[i].t <= evs[j].t
  }

  ghost predicate NoSuccessAfter(evs: seq<Event>, i: int) {
    forall j | 0 <= j < |evs| && i < j :: !evs[j].Succeed?
  }

  /** The latest opening that no success has ended. */
  ghost predicate LatestOpening(evs: seq<Event>, i: int) {
    Opens(evs, i) && NoSuccessAfter(evs, i) && forall j | i < j < |evs| :: !Opens(evs, j)
  }

  /** `until` is five minutes after the latest opening that no success has ended, if there is one. */
  ghost predicate IsOpenUntil(evs: seq<Event>, until: Option<real>) {
    match until
    case Some(u) => exists i :: LatestOpening(evs, i) && u == evs[i].t + OPEN_FOR
    case None => forall i | Opens(evs, i) :: !NoSuccessAfter(evs, i)
  }

  lemma OpensLater(evs: seq<Event>, ev: Event, i: int)
    requires 0 <= i < |evs|
    ensures Opens(evs + [ev], i) == Opens(evs, i)
    ensures NoSuccessAfter(evs + [ev], i) == (NoSuccessAfter(evs, i) && ev.Fail?)
  {
    assert (evs + [ev])[..i + 1] == evs[..i + 1];
    assert (evs + [ev])[|evs|] == ev;
    assert forall j | 0 <= j < |evs| :: (evs + [ev])[j] == evs[j];
  }

  lemma {:induction false} OpenUntilLatest(evs: seq<Event>)
    ensures IsOpenUntil(evs, After(evs).openUntil)
  {
    if evs != [] {
      var n := |evs| - 1;
      assert evs == evs[..n] + [evs[n]];
      OpenUntilLatest(evs[..n]);
      forall i | 0 <= i < n
        ensures Opens(evs, i) == Opens(evs[..n], i)
        ensures NoSuccessAfter(evs, i) == (NoSuccessAfter(evs[..n], i) && evs[n].Fail?)
      {
        OpensLater(evs[..n], evs[n], i);
      }
      if evs[n].Succeed? {
        assert IsOpenUntil(evs, None);
      } else {
        CountsInThrees(evs[..n]);
        assert evs[..n + 1] == evs;
        assert Opens(evs, n) <==> After(evs[..n]).failures + 1 >= THRESHOLD;
        FailureOpens(evs, n);
      }
    }
  }

  lemma FailureOpens(evs: seq<Event>, n: nat)
    requires |evs| == n + 1 && evs[n].Fail? && IsOpenUntil(evs[..n], After(evs[..n]).openUntil)
    requires forall i | 0 <= i < n ::
               Opens(evs, i) == Opens(evs[..n], i) && NoSuccessAfter(evs, i) == NoSuccessAfter(evs[..n], i)
    ensures IsOpenUntil(evs, if Opens(evs, n) then Some(evs[n].t + OPEN_FOR) else After(evs[..n]).openUntil)
  {
    if Opens(evs, n) {
      assert LatestOpening(evs, n);
    } else if After(evs[..n]).openUntil.Some? {
      var i :| LatestOpening(evs[..n], i) && After(evs[..n]).openUntil.value == evs[..n][i].t + OPEN_FOR;
      assert LatestOpening(evs, i);
    }
  }

  /**
   A request at `t` is refused by the breaker exactly when some opening less than five minutes
   old has not been followed by a success.
  */
  lemma RefusedIff(evs: seq<Event>, t: real)
    requires Timed(evs) && (evs != [] ==> evs[|evs| - 1].t <= t)
    ensures Open(After(evs), t) <==> exists i :: Opens(evs, i) && NoSuccessAfter(evs, i) && t < evs[i].t + OPEN_FOR
  {
    OpenUntilLatest(evs);
    if After(evs).openUntil.Some? {
      var k :| LatestOpening(evs, k) && After(evs).openUntil.value == evs[k].t + OPEN_FOR;
      if i :| Opens(evs, i) && NoSuccessAfter(evs, i) && t < evs[i].t + OPEN_FOR {
        assert i <= k;
      }
    }
  }

  // ----- sequential failing calls -----

  /** The breaker before call `i`, when each earlier call recorded a failure. */
  function Before(s: State, done: seq<real>, i: nat): State
    requires i <= |done|
  {
    if i == 0 then s else Failed(Before(s, done, i - 1), done[i - 1])
  }

  /** Calls one after the other: call `i` is admitted at `ask[i]` and records its failure at `done[i]`. */
  ghost predicate FailingCalls(s: State, ask: seq<real>, done: seq<real>) {
    && Sequential(ask, done) && 0 <= s.failures <= 2
    && (forall i | 0 <= i < |ask| :: !Open(Before(s, done, i), ask[i]))
  }

  ghost predicate Sequential(ask: seq<real>, done: seq<real>) {
    && |ask| == |done|
    && (forall i | 0 <= i < |ask| :: ask[i] <= done[i])
    && (forall i | 0 < i < |ask| :: done[i - 1] <= ask[i])
  }

  lemma {:induction false} BeforeCount(s: State, done: seq<real>, i: nat)
    requires i <= |done| && 0 <= s.failures <= 2
    ensures Before(s, done, i).failures == (s.failures + i) % THRESHOLD
  {
    if i > 0 {
      BeforeCount(s, done, i - 1);
    }
  }

  lemma {:induction false} AsksAscend(ask: seq<real>, done: seq<real>, i: nat, j: nat)
    requires Sequential(ask, done) && i <= j < |ask|
    ensures ask[i] <= ask[j]
  {
    if i < j {
      AsksAscend(ask, done, i, j - 1);
    }
  }

  /** Among three failures in a row one opens the breaker, so a fourth call waits five minutes. */
  lemma FourthCallWaits(s: State, ask: seq<real>, done: seq<real>, i: nat)
    requires FailingCalls(s, ask, done) && i + 3 < |ask|
    ensures ask[i] + OPEN_FOR <= ask[i + 3]
  {
    BeforeCount(s, done, i);
    BeforeCount(s, done, i + 1);
    BeforeCount(s, done, i + 2);
    var k := if (s.failures + i) % 3 == 2 then i else if (s.failures + i) % 3 == 1 then i + 1 else i + 2;
    assert Before(s, done, k + 1) == Failed(Before(s, done, k), done[k]);
    assert Before(s, done, k + 1).openUntil == Some(done[k] + OPEN_FOR);
    AsksAscend(ask, done, i, k);
    AsksAscend(ask, done, k + 1, i + 3);
  }

  /** The calls of the half-open five-minute window that starts at `w`. */
  ghost function Window(ask: seq<real>, w: real): set<nat> {
    set i: nat | i < |ask| && w <= ask[i] < w + OPEN_FOR
  }

  /** Sequential failing calls: at most three reach the provider in any five minutes. */
  lemma AtMostThreeCalls(s: State, ask: seq<real>, done: seq<real>, w: real)
    requires FailingCalls(s, ask, done)
    ensures |Window(ask, w)| <= 3
  {
    var calls := Window(ask, w);
    if calls != {} {
      var m := Least(calls);
      forall i | i in calls ensures i in {m, m + 1, m + 2} {
        CloseToFirst(s, ask, done, w, m, i);
      }
      SubsetSize(calls, {m, m + 1, m + 2});
    }
  }

  lemma CloseToFirst(s: State, ask: seq<real>, done: seq<real>, w: real, m: nat, i: nat)
    requires FailingCalls(s, ask, done) && m <= i < |ask| && w <= ask[m] && ask[i] < w + OPEN_FOR
    ensures i < m + 3
  {
    if i >= m + 3 {
      FourthCallWaits(s, ask, done, m);
      AsksAscend(ask, done, m + 3, i);
    }
  }

  lemma Least(xs: set<nat>) returns (m: nat)
    requires xs != {}
    ensures m in xs && forall x | x in xs :: m <= x
    decreases xs
  {
    var x :| x in xs;
    if xs == {x} {
      m := x;
    } else {
      assert xs - {x} != {};
      var r := Least(xs - {x});
      m := if x < r then x else r;
      assert forall y | y in xs :: y == x || y in xs - {x};
    }
  }

  // ----- concurrent failing calls -----

  /** What concurrent calls do under the mutex, in that order: an admitted request, or a recorded failure. */
  datatype Act = Ask(t: real) | Fails(t: real)

  /** The breaker before act `i`. */
  function StateAt(s: State, acts: seq<Act>, i: nat): State
    requires i <= |acts|
  {
    if i == 0 then s
    else if acts[i - 1].Fails? then Failed(StateAt(s, acts, i - 1), acts[i - 1].t)
    else StateAt(s, acts, i - 1)
  }

  /** Calls admitted and not yet recorded, before act `i`; `flying` of them at the start. */
  function InFlight(flying: nat, acts: seq<Act>, i: nat): int
    requires i <= |acts|
  {
    if i == 0 then flying else InFlight(flying, acts, i - 1) + if acts[i - 1].Ask? then 1 else -1
  }

  /** At most `k` calls at a time, each admitted by the breaker and each recorded as a failure in the end. */
  ghost predicate ConcurrentCalls(s: State, flying: nat, k: nat, acts: seq<Act>) {
    && 0 <= s.failures <= 2 && flying <= k
    && (forall i, j | 0 <= i <= j < |acts| :: acts[i].t <= acts[j].t)
    && (forall i | 0 <= i < |acts| ::
          if acts[i].Ask? then !Open(StateAt(s, acts, i), acts[i].t) && InFlight(flying, acts, i) < k
          else InFlight(flying, acts, i) > 0)
  }

  /** Failures recorded from act `m` up to act `i`. */
  function FailuresIn(acts: seq<Act>, m: nat, i: nat): nat
    requires m <= i <= |acts|
  {
    if i == m then 0 else FailuresIn(acts, m, i - 1) + if acts[i - 1].Fails? then 1 else 0
  }

  ghost function AsksIn(acts: seq<Act>, m: nat, i: nat): set<nat>
    requires i <= |acts|
  {
    set j: nat | m <= j < i && acts[j].Ask?
  }

  lemma {:induction false} Balance(flying: nat, acts: seq<Act>, m: nat, i: nat)
    requires m <= i <= |acts|
    ensures InFlight(flying, acts, i) == InFlight(flying, acts, m) + |AsksIn(acts, m, i)| - FailuresIn(acts, m, i)
  {
    if m < i {
      Balance(flying, acts, m, i - 1);
      hide AsksIn;
      OneMoreAct(acts, m, i - 1);
    } else {
      assert AsksIn(acts, m, i) == {};
    }
  }

  lemma OneMoreAct(acts: seq<Act>, m: nat, i: nat)
    requires m <= i < |acts|
    ensures |AsksIn(acts, m, i + 1)| == |AsksIn(acts, m, i)| + if acts[i].Ask? then 1 else 0
  {
    var before, after := AsksIn(acts, m, i), AsksIn(acts, m, i + 1);
    assert i !in before;
    if acts[i].Ask? {
      assert after == before + {i};
    } else {
      assert after == before;
    }
  }

  /** Three failures from act `m` on open the breaker, and it stays open for five minutes after that act. */
  lemma {:induction false} ThreeFailuresOpen(s: State, flying: nat, k: nat, acts: seq<Act>, m: nat, i: nat)
    requires ConcurrentCalls(s, flying, k, acts) && m <= i <= |acts| && m < |acts|
    ensures var (before, after, n) := (StateAt(s, acts, m), StateAt(s, acts, i), FailuresIn(acts, m, i));
            || (n + before.failures < THRESHOLD && after.failures == before.failures + n)
            || (after.openUntil.Some? && after.openUntil.value >= acts[m].t + OPEN_FOR)
    decreases i
  {
    if m < i {
      ThreeFailuresOpen(s, flying, k, acts, m, i - 1);
      assert acts[m].t <= acts[i - 1].t;
    } else {
      FewFailures(s, acts, m);
    }
  }

  lemma {:induction false} FewFailures(s: State, acts: seq<Act>, i: nat)
    requires 0 <= s.failures <= 2 && i <= |acts|
    ensures 0 <= StateAt(s, acts, i).failures <= 2
  {
    if i > 0 {
      FewFailures(s, acts, i - 1);
    }
  }

  /** The requests admitted in the half-open five-minute window that starts at `w`. */
  ghost function AsksInWindow(acts: seq<Act>, w: real): set<nat> {
    set i: nat | i < |acts| && acts[i].Ask? && w <= acts[i].t < w + OPEN_FOR
  }

  /** With at most `k` calls at a time, all failing, at most k + 2 requests are sent in any five minutes. */
  lemma ConcurrentBound(s: State, flying: nat, k: nat, acts: seq<Act>, w: real)
    requires ConcurrentCalls(s, flying, k, acts)
    ensures |AsksInWindow(acts, w)| <= k + 2
  {
    hide ConcurrentCalls;
    var calls := AsksInWindow(acts, w);
    if calls != {} {
      var m := Least(calls);
      var x := Greatest(calls);
      SpanBound(s, flying, k, acts, m, x);
      hide AsksInWindow;
      SpanHolds(acts, w, m, x);
      SubsetSize(calls, AsksIn(acts, m, x) + {x});
    }
  }

  lemma SpanHolds(acts: seq<Act>, w: real, m: nat, x: nat)
    requires m <= x < |acts| && forall i | i in AsksInWindow(acts, w) :: m <= i <= x
    ensures AsksInWindow(acts, w) <= AsksIn(acts, m, x) + {x}
  {
  }

  /** Between two requests less than five minutes apart, at most k + 1 are admitted. */
  lemma SpanBound(s: State, flying: nat, k: nat, acts: seq<Act>, m: nat, x: nat)
    requires ConcurrentCalls(s, flying, k, acts) && m <= x < |acts|
    requires acts[x].Ask? && acts[x].t < acts[m].t + OPEN_FOR
    ensures |AsksIn(acts, m, x)| <= k + 1
  {
    FewFailures(s, acts, m);
    ThreeFailuresOpen(s, flying, k, acts, m, x);
    assert FailuresIn(acts, m, x) <= 2;
    Balance(flying, acts, m, x);
    NeverNegative(s, flying, k, acts, m);
  }

  lemma {:induction false} NeverNegative(s: State, flying: nat, k: nat, acts: seq<Act>, i: nat)
    requires ConcurrentCalls(s, flying, k, acts) && i <= |acts|
    ensures 0 <= InFlight(flying, acts, i) <= k
  {
    if i > 0 {
      NeverNegative(s, flying, k, acts, i - 1);
    }
  }

  lemma Greatest(xs: set<nat>) returns (m: nat)
    requires xs != {}
    ensures m in xs && forall x | x in xs :: x <= m
    decreases xs
  {
    var x :| x in xs;
    if xs == {x} {
      m := x;
    } else {
      assert xs - {x} != {};
      var r := Greatest(xs - {x});
      m := if x > r then x else r;
      assert forall y | y in xs :: y == x || y in xs - {x};
    }
  }

  /** Two failing calls one after the other, then `k` calls at once, all at the same instant. */
  function Burst(k: nat): seq<Act> { [Ask(0.0), Fails(0.0), Ask(0.0), Fails(0.0)] + seq(k, _ => Ask(0.0)) }

  /** The bound is reached: a closed breaker admits all k + 2 of these requests. */
  lemma ConcurrentBoundReached(k: nat)
    requires k >= 1
    ensures ConcurrentCalls(CLOSED, 0, k, Burst(k)) && |AsksInWindow(Burst(k), 0.0)| == k + 2
  {
    var acts := Burst(k);
    BurstLegal(k);
    BurstAt(k, k + 4);
    Balance(0, acts, 0, k + 4);
    hide StateAt, InFlight, FailuresIn, ConcurrentCalls;
    assert AsksInWindow(acts, 0.0) == AsksIn(acts, 0, k + 4);
  }

  lemma BurstLegal(k: nat)
    requires k >= 1
    ensures ConcurrentCalls(CLOSED, 0, k, Burst(k))
  {
    var acts := Burst(k);
    forall i | 0 <= i < |acts|
      ensures if acts[i].Ask? then !Open(StateAt(CLOSED, acts, i), acts[i].t) && InFlight(0, acts, i) < k
              else InFlight(0, acts, i) > 0
    {
      BurstAt(k, i);
      hide StateAt, InFlight, FailuresIn;
    }
    hide StateAt, InFlight, FailuresIn;
  }

  lemma {:induction false} BurstAt(k: nat, i: nat)
    requires i <= k + 4
    ensures StateAt(CLOSED, Burst(k), i) == State(if i <= 1 then 0 else if i <= 3 then 1 else 2, None)
    ensures InFlight(0, Burst(k), i) == if i <= 4 then i % 2 else i - 4
    ensures FailuresIn(Burst(k), 0, i) == if i <= 1 then 0 else if i <= 3 then 1 else 2
  {
    if i > 0 {
      BurstAt(k, i - 1);
    }
  }
}
