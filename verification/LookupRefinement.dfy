/**
 The imperative service and the protocol agree: what one call of `Service.Lookup` does to the
 table and the caches, and its answer, is a run of the protocol's steps (internal/service/bin_service.go).
*/
module LookupRefinement {
  import opened Wrappers
  import opened Validator
  import opened Bins
  import opened Store
  import opened TtlCache
  import opened LookupService
  import opened LookupProtocol
  import CircuitBreaker

  ghost function AfterEvents(c: Config, s: World, evs: seq<Event>): World {
    if evs == [] then s else Step(c, AfterEvents(c, s, evs[..|evs| - 1]), evs[|evs| - 1])
  }

  /** `t` is `s` with request `r` waiting for the flight for `bin`, and this table and these caches. */
  ghost predicate Underway(s: World, r: nat, bin: string, stage: Stage, db: Table, cache: Items<Response>,
                           misses: Items<bool>,
                           t: World) {
    && t.requests == s.requests[r := Request(bin, Waiting)]
    && t.flights == s.flights[bin := stage]
    && t.db == db && t.cache == cache && t.misses == misses
  }

  predicate Alone(evs: seq<Event>) { forall i | 0 <= i < |evs| :: !evs[i].OtherWriter? }

  /** A new request for a BIN nobody is looking up. */
  ghost predicate Quiet(s: World, r: nat, bin: string) {
    && ValidBin(bin) && r !in s.requests && bin !in s.flights
    && forall q | q in s.requests :: s.requests[q] != Request(bin, Waiting)
  }

  // The steps of one call, in the order of the code; those that do not apply change nothing.

  function Checks(r: nat, bin: string, x: Conditions): seq<Event> {
    [Arrive(r, bin), CheckCache(r, x.getNow), CheckMisses(r, x.missNow)]
  }

  function Flight(r: nat, bin: string, x: Conditions, reserved: bool, orderC: seq<string>,
                  orderM: seq<string>): seq<Event> {
    [Enter(r), Read(bin, x.readOk), Reserve(bin, reserved), AskHandy(bin, x.handy), AskBinlist(bin, x.binlist),
     Upsert(bin, x.upsert), SetCache(bin, orderC, x.evictNow, x.setNow), SetMisses(bin, orderM, x.evictNow, x.setNow),
     Release(bin)]
  }

  lemma {:induction false} AfterMore(c: Config, s: World, a: seq<Event>, b: seq<Event>)
    ensures AfterEvents(c, s, a + b) == AfterEvents(c, AfterEvents(c, s, a), b)
  {
    hide Step;
    if b == [] {
      assert a + b == a;
    } else {
      var n := |b| - 1;
      AfterMore(c, s, a, b[..n]);
      assert (a + b)[..|a + b| - 1] == a + b[..n] && (a + b)[|a + b| - 1] == b[n];
    }
  }

  lemma AfterOne(c: Config, s: World, ev: Event)
    ensures AfterEvents(c, s, [ev]) == Step(c, s, ev)
  {
    hide Step;
    assert [ev][..0] == [];
  }

  lemma ReadsTo(c: Config, s: World, r: nat, bin: string, t: World, ok: bool)
    requires Underway(s, r, bin, Reading, s.db, s.cache, s.misses, t)
    ensures Underway(s, r, bin, AfterRead(c, s.db, bin, ok), s.db, s.cache, s.misses, Step(c, t, Read(bin, ok)))
  {
    hide AfterRead, ToResponse;
  }

  lemma ReservesTo(c: Config, s: World, r: nat, bin: string, stage: Stage, t: World, reserved: bool)
    requires Underway(s, r, bin, stage, s.db, s.cache, s.misses, t)
    ensures Underway(s, r, bin, if stage.Reserving? then AfterReserve(reserved) else stage, s.db, s.cache, s.misses,
                     Step(c, t, Reserve(bin, reserved)))
  {
    hide ToResponse;
  }

  lemma HandyTo(c: Config, s: World, r: nat, bin: string, stage: Stage, t: World, x: Conditions)
    requires Underway(s, r, bin, stage, s.db, s.cache, s.misses, t)
    ensures Underway(s, r, bin, if stage.AskingHandy? then AfterHandy(bin, x.handy) else stage, s.db, s.cache, s.misses,
                     Step(c, t, AskHandy(bin, x.handy)))
  {
    hide ToResponse, AfterHandy;
  }

  lemma BinlistTo(c: Config, s: World, r: nat, bin: string, stage: Stage, t: World, x: Conditions)
    requires Underway(s, r, bin, stage, s.db, s.cache, s.misses, t)
    ensures Underway(s, r, bin, if stage.AskingBinlist? then AfterBinlist(bin, x.binlist) else stage,
                     s.db, s.cache, s.misses, Step(c, t, AskBinlist(bin, x.binlist)))
  {
    hide ToResponse, AfterBinlist;
  }

  /** The three steps of the chain come out where the chain does. */
  lemma ChainEnds(c: Config, reserved: bool, bin: string, x: Conditions, db: Table)
    requires reserved ==> c.handy
    ensures var a := AfterRead(c, db, bin, x.readOk);
            var b := if a.Reserving? then AfterReserve(reserved) else a;
            var d := if b.AskingHandy? then AfterHandy(bin, x.handy) else b;
            FlightEnd(c, reserved, bin, x, db) == if d.AskingBinlist? then AfterBinlist(bin, x.binlist) else d
  {
    hide ValidEnrichment, GetByBin, AfterBinlist;
  }

  /** The state after the read and the three steps of the chain. */
  ghost function AfterChain(c: Config, t: World, bin: string, x: Conditions, reserved: bool): World {
    var t1 := Step(c, t, Read(bin, x.readOk));
    var t2 := Step(c, t1, Reserve(bin, reserved));
    Step(c, Step(c, t2, AskHandy(bin, x.handy)), AskBinlist(bin, x.binlist))
  }

  /** The state after both `Set`s, of which at most one applies. */
  ghost function AfterCaches(c: Config, t: World, bin: string, x: Conditions,
                             orderC: seq<string>, orderM: seq<string>): World {
    var t1 := Step(c, t, SetCache(bin, orderC, x.evictNow, x.setNow));
    Step(c, t1, SetMisses(bin, orderM, x.evictNow, x.setNow))
  }

  lemma ChainSteps(c: Config, t: World, bin: string, x: Conditions, reserved: bool)
    ensures AfterChain(c, t, bin, x, reserved)
         == Step(c, Step(c, Step(c, Step(c, t, Read(bin, x.readOk)), Reserve(bin, reserved)), AskHandy(bin, x.handy)),
                 AskBinlist(bin, x.binlist))
  {
    hide Step;
  }

  lemma CacheSteps(c: Config, t: World, bin: string, x: Conditions, orderC: seq<string>, orderM: seq<string>)
    ensures AfterCaches(c, t, bin, x, orderC, orderM)
         == Step(c, Step(c, t, SetCache(bin, orderC, x.evictNow, x.setNow)),
                 SetMisses(bin, orderM, x.evictNow, x.setNow))
  {
    hide Step;
  }

  lemma ToEnd(c: Config, s: World, r: nat, bin: string, t: World, x: Conditions, reserved: bool)
    requires Underway(s, r, bin, Reading, s.db, s.cache, s.misses, t) && (reserved ==> c.handy)
    ensures Underway(s, r, bin, FlightEnd(c, reserved, bin, x, s.db), s.db, s.cache, s.misses,
                     AfterChain(c, t, bin, x, reserved))
  {
    hide *;
    ChainSteps(c, t, bin, x, reserved);
    var a := AfterRead(c, s.db, bin, x.readOk);
    var b := if a.Reserving? then AfterReserve(reserved) else a;
    var d := if b.AskingHandy? then AfterHandy(bin, x.handy) else b;
    var t1 := Step(c, t, Read(bin, x.readOk));
    var t2 := Step(c, t1, Reserve(bin, reserved));
    ReadsTo(c, s, r, bin, t, x.readOk);
    ReservesTo(c, s, r, bin, a, t1, reserved);
    HandyTo(c, s, r, bin, b, t2, x);
    BinlistTo(c, s, r, bin, d, Step(c, t2, AskHandy(bin, x.handy)), x);
    ChainEnds(c, reserved, bin, x, s.db);
  }

  function AfterSave(end: Stage, x: Conditions): Stage {
    if end.Persisting? then AfterUpsert(end.record, x.upsert) else end
  }

  lemma SavesTo(c: Config, s: World, r: nat, bin: string, end: Stage, t: World, x: Conditions)
    requires Underway(s, r, bin, end, s.db, s.cache, s.misses, t)
    ensures Underway(s, r, bin, AfterSave(end, x), TableAtEnd(end, x, s.db), s.cache, s.misses,
                     Step(c, t, Upsert(bin, x.upsert)))
  {
    hide ToResponse, TableAfterUpsert;
  }

  /**
   With the iteration orders that the two `Set`s used, the flight finishes with the answer and leaves these caches.
  */
  lemma CachesTo(c: Config, s: World, r: nat, bin: string, end: Stage, db: Table, t: World, x: Conditions,
                 answer: Answer,
                 cache': Items<Response>, misses': Items<bool>)
    returns (orderC: seq<string>, orderM: seq<string>)
    requires Underway(s, r, bin, AfterSave(end, x), db, s.cache, s.misses, t)
    requires EndsWith(end, x, answer) && CachesAtEnd(bin, x, answer, s.cache, s.misses, cache', misses')
    requires end.Finished? ==> end.answer.Failed?
    ensures Underway(s, r, bin, Finished(answer), db, cache', misses',
                     AfterCaches(c, t, bin, x, orderC, orderM))
  {
    hide *;
    orderC, orderM := [], [];
    var stage := AfterSave(end, x);
    AnswerStage(end, x, answer);
    if answer.Hit? {
      HitSets(bin, x, answer, s.cache, s.misses, cache', misses');
      orderC := OrderOf(s.cache, MAX_ENTRIES, TTL, bin, answer.response, x, cache');
      HoldingCaches(c, s, r, bin, stage, db, t, x, orderC);
      SkipSetMisses(c, s, r, bin, Finished(answer), db, cache', misses',
                    Step(c, t, SetCache(bin, orderC, x.evictNow, x.setNow)), x, orderM);
    } else if answer.Absent? {
      AbsentSets(bin, x, answer, s.cache, s.misses, cache', misses');
      orderM := OrderOf(s.misses, MAX_MISSES, MISS_TTL, bin, true, x, misses');
      SkipSetCache(c, s, r, bin, stage, db, s.cache, s.misses, t, x, orderC);
      MissingCaches(c, s, r, bin, db, Step(c, t, SetCache(bin, orderC, x.evictNow, x.setNow)), x, orderM);
    } else {
      FailureSets(bin, x, answer, s.cache, s.misses, cache', misses');
      SkipSetCache(c, s, r, bin, stage, db, s.cache, s.misses, t, x, orderC);
      SkipSetMisses(c, s, r, bin, stage, db, s.cache, s.misses,
                    Step(c, t, SetCache(bin, orderC, x.evictNow, x.setNow)), x, orderM);
    }
    CacheSteps(c, t, bin, x, orderC, orderM);
  }

  lemma AnswerStage(end: Stage, x: Conditions, answer: Answer)
    requires EndsWith(end, x, answer) && (end.Finished? ==> end.answer.Failed?)
    ensures match answer
            case Hit(v) => AfterSave(end, x).Holding? && ToResponse(AfterSave(end, x).record) == v
            case Absent => AfterSave(end, x) == Missing
            case Failed(_) => AfterSave(end, x) == Finished(answer)
  {
    hide ToResponse;
  }

  lemma HitSets(bin: string, x: Conditions, answer: Answer, cache: Items<Response>, misses: Items<bool>,
                cache': Items<Response>, misses': Items<bool>)
    requires CachesAtEnd(bin, x, answer, cache, misses, cache', misses') && answer.Hit?
    ensures WasSet(cache, MAX_ENTRIES, TTL, bin, answer.response, x, cache') && misses' == misses
  {
    hide WasSet;
  }

  lemma AbsentSets(bin: string, x: Conditions, answer: Answer, cache: Items<Response>, misses: Items<bool>,
                   cache': Items<Response>, misses': Items<bool>)
    requires CachesAtEnd(bin, x, answer, cache, misses, cache', misses') && answer.Absent?
    ensures WasSet(misses, MAX_MISSES, MISS_TTL, bin, true, x, misses') && cache' == cache
  {
    hide WasSet;
  }

  lemma FailureSets(bin: string, x: Conditions, answer: Answer, cache: Items<Response>, misses: Items<bool>,
                    cache': Items<Response>, misses': Items<bool>)
    requires CachesAtEnd(bin, x, answer, cache, misses, cache', misses') && answer.Failed?
    ensures cache' == cache && misses' == misses
  {
    hide WasSet;
  }

  lemma OrderOf<V>(before: Items<V>, max: int, ttl: int, key: string, v: V, x: Conditions, after: Items<V>)
    returns (order: seq<string>)
    requires WasSet(before, max, ttl, key, v, x, after)
    ensures IsOrder(order, before.Keys) && forall k | k in order :: k in before
    ensures after == AfterSet(before, max, ttl, key, v, order, x.evictNow, x.setNow)
  {
    hide AfterSet;
    order :| IsOrder(order, before.Keys) && after == AfterSet(before, max, ttl, key, v, order, x.evictNow, x.setNow);
  }

  lemma SkipSetCache(c: Config, s: World, r: nat, bin: string, stage: Stage, db: Table,
                     cache: Items<Response>, misses: Items<bool>, t: World, x: Conditions, order: seq<string>)
    requires Underway(s, r, bin, stage, db, cache, misses, t) && !stage.Holding?
    ensures Underway(s, r, bin, stage, db, cache, misses, Step(c, t, SetCache(bin, order, x.evictNow, x.setNow)))
  {
    hide AfterSet, IsOrder, ToResponse;
  }

  lemma SkipSetMisses(c: Config, s: World, r: nat, bin: string, stage: Stage, db: Table,
                      cache: Items<Response>, misses: Items<bool>, t: World, x: Conditions, order: seq<string>)
    requires Underway(s, r, bin, stage, db, cache, misses, t) && stage != Missing
    ensures Underway(s, r, bin, stage, db, cache, misses, Step(c, t, SetMisses(bin, order, x.evictNow, x.setNow)))
  {
    hide AfterSet, IsOrder, ToResponse;
  }

  lemma HoldingCaches(c: Config, s: World, r: nat, bin: string, stage: Stage, db: Table, t: World, x: Conditions,
                      order: seq<string>)
    requires Underway(s, r, bin, stage, db, s.cache, s.misses, t) && stage.Holding? && IsOrder(order, s.cache.Keys)
    ensures var v := ToResponse(stage.record);
            Underway(s, r, bin, Finished(Hit(v)), db,
                     AfterSet(s.cache, MAX_ENTRIES, TTL, bin, v, order, x.evictNow, x.setNow), s.misses,
                     Step(c, t, SetCache(bin, order, x.evictNow, x.setNow)))
  {
    hide ToResponse, AfterSet;
  }

  lemma MissingCaches(c: Config, s: World, r: nat, bin: string, db: Table, t: World, x: Conditions, order: seq<string>)
    requires Underway(s, r, bin, Missing, db, s.cache, s.misses, t) && IsOrder(order, s.misses.Keys)
    ensures Underway(s, r, bin, Finished(Absent), db,
                     s.cache, AfterSet(s.misses, MAX_MISSES, MISS_TTL, bin, true, order, x.evictNow, x.setNow),
                     Step(c, t, SetMisses(bin, order, x.evictNow, x.setNow)))
  {
    hide AfterSet;
  }

  lemma ReleasesTo(c: Config, s: World, r: nat, bin: string, t: World, answer: Answer,
                   db: Table, cache: Items<Response>, misses: Items<bool>)
    requires Quiet(s, r, bin) && Underway(s, r, bin, Finished(answer), db, cache, misses, t)
    ensures Settled(s, r, bin, answer, db, cache, misses, Step(c, t, Release(bin)))
  {
    hide ValidBin;
  }

  /** `t` is `s` with request `r` answered, and this table and these caches. */
  ghost predicate Settled(s: World, r: nat, bin: string, answer: Answer, db: Table, cache: Items<Response>,
                          misses: Items<bool>,
                          t: World) {
    && t.requests == s.requests[r := Request(bin, Done(answer))]
    && t.flights == s.flights
    && t.db == db && t.cache == cache && t.misses == misses
  }

  lemma ChecksTo(c: Config, s: World, r: nat, bin: string, x: Conditions)
    requires Quiet(s, r, bin)
    ensures var t := Step(c, Step(c, Step(c, s, Arrive(r, bin)), CheckCache(r, x.getNow)), CheckMisses(r, x.missNow));
            && (Find(s.cache, bin, x.getNow).Some? ==>
                  Settled(s, r, bin, Hit(Find(s.cache, bin, x.getNow).value), s.db, s.cache, s.misses, t))
            && (Find(s.cache, bin, x.getNow).None? && Find(s.misses, bin, x.missNow).Some? ==>
                  Settled(s, r, bin, Absent, s.db, s.cache, s.misses, t))
            && (Find(s.cache, bin, x.getNow).None? && Find(s.misses, bin, x.missNow).None? ==>
                  Underway(s, r, bin, Reading, s.db, s.cache, s.misses, Step(c, t, Enter(r))))
  {
    hide *;
    var t1 := Step(c, s, Arrive(r, bin));
    var t2 := Step(c, t1, CheckCache(r, x.getNow));
    var t3 := Step(c, t2, CheckMisses(r, x.missNow));
    var p := Phase1(Find(s.cache, bin, x.getNow));
    ArriveTo(c, s, r, bin);
    CacheTo(c, s, r, bin, t1, x.getNow);
    MissesTo(c, s, r, bin, t2, p, x.missNow);
    PhasesAre(Find(s.cache, bin, x.getNow), Find(s.misses, bin, x.missNow));
    if p.Done? {
      SettledNow(s, r, bin, p.answer);
    } else if Find(s.misses, bin, x.missNow).Some? {
      SettledNow(s, r, bin, Absent);
    } else {
      EnterTo(c, s, r, bin, t3);
    }
  }

  lemma PhasesAre(cached: Option<Response>, missed: Option<bool>)
    ensures Phase1(cached) == if cached.Some? then Done(Hit(cached.value)) else CacheMissed
    ensures Phase2(missed) == if missed.Some? then Done(Absent) else NotCached
  {
  }

  lemma SettledNow(s: World, r: nat, bin: string, a: Answer)
    ensures Settled(s, r, bin, a, s.db, s.cache, s.misses, s.(requests := s.requests[r := Request(bin, Done(a))]))
  {
  }

  lemma MissesTo(c: Config, s: World, r: nat, bin: string, t: World, p: Phase, now: int)
    requires t == s.(requests := s.requests[r := Request(bin, p)])
    ensures var p' := if p == CacheMissed then Phase2(Find(s.misses, bin, now)) else p;
            Step(c, t, CheckMisses(r, now)) == s.(requests := s.requests[r := Request(bin, p')])
  {
    hide Find, Phase2;
    if p != CacheMissed { assert t.requests[r].phase == p; }
  }

  lemma EnterTo(c: Config, s: World, r: nat, bin: string, t: World)
    requires Quiet(s, r, bin) && t == s.(requests := s.requests[r := Request(bin, NotCached)])
    ensures Underway(s, r, bin, Reading, s.db, s.cache, s.misses, Step(c, t, Enter(r)))
  {
    hide ValidBin;
  }

  lemma ArriveTo(c: Config, s: World, r: nat, bin: string)
    requires Quiet(s, r, bin)
    ensures Step(c, s, Arrive(r, bin)) == s.(requests := s.requests[r := Request(bin, Fresh)])
  {
    hide ValidBin;
  }

  lemma CacheTo(c: Config, s: World, r: nat, bin: string, t: World, now: int)
    requires t == s.(requests := s.requests[r := Request(bin, Fresh)])
    ensures var p := Phase1(Find(s.cache, bin, now));
            Step(c, t, CheckCache(r, now)) == s.(requests := s.requests[r := Request(bin, p)])
  {
    hide Find;
  }

  /**
   One call of the service is a run of the protocol: with some iteration orders of the caches, the steps lead to
   the call's effect.
  */
  lemma CallIsARun(c: Config, s: World, r: nat, bin: string, x: Conditions, reserved: bool,
                   db': Table, cache': Items<Response>, misses': Items<bool>, answer: Answer)
    requires Quiet(s, r, bin) && (reserved ==> c.handy)
    requires LookupEffect(c, reserved, bin, x, s.db, s.cache, s.misses, db', cache', misses', answer)
    ensures exists evs :: Alone(evs) && Settled(s, r, bin, answer, db', cache', misses', AfterEvents(c, s, evs))
  {
    hide *;
    var t := AfterEvents(c, s, Checks(r, bin, x));
    CallIsAlone(r, bin, x, reserved, [], []);
    ChecksFold(c, s, r, bin, x);
    ChecksTo(c, s, r, bin, x);
    EffectCases(c, reserved, bin, x, s.db, s.cache, s.misses, db', cache', misses', answer);
    if Find(s.cache, bin, x.getNow).None? && Find(s.misses, bin, x.missNow).None? {
      FlightIsARun(c, s, r, bin, x, reserved, db', cache', misses', answer, t);
    }
  }

  lemma CallIsAlone(r: nat, bin: string, x: Conditions, reserved: bool, orderC: seq<string>, orderM: seq<string>)
    ensures Alone(Checks(r, bin, x)) && Alone(Checks(r, bin, x) + Flight(r, bin, x, reserved, orderC, orderM))
  {
  }

  lemma EffectCases(c: Config, reserved: bool, bin: string, x: Conditions,
                    db: Table, cache: Items<Response>, misses: Items<bool>,
                    db': Table, cache': Items<Response>, misses': Items<bool>, answer: Answer)
    requires LookupEffect(c, reserved, bin, x, db, cache, misses, db', cache', misses', answer)
    ensures Find(cache, bin, x.getNow).Some? ==>
              answer == Hit(Find(cache, bin, x.getNow).value) && db' == db && cache' == cache && misses' == misses
    ensures Find(cache, bin, x.getNow).None? && Find(misses, bin, x.missNow).Some? ==>
              answer == Absent && db' == db && cache' == cache && misses' == misses
    ensures Find(cache, bin, x.getNow).None? && Find(misses, bin, x.missNow).None? ==>
              && EndsWith(FlightEnd(c, reserved, bin, x, db), x, answer)
              && db' == TableAtEnd(FlightEnd(c, reserved, bin, x, db), x, db)
              && CachesAtEnd(bin, x, answer, cache, misses, cache', misses')
  {
    hide FlightEnd, EndsWith, TableAtEnd, CachesAtEnd, Find;
  }

  lemma ChecksFold(c: Config, s: World, r: nat, bin: string, x: Conditions)
    ensures AfterEvents(c, s, Checks(r, bin, x))
         == Step(c, Step(c, Step(c, s, Arrive(r, bin)), CheckCache(r, x.getNow)), CheckMisses(r, x.missNow))
  {
    hide Step, AfterEvents;
    ThreeSteps(c, s, Arrive(r, bin), CheckCache(r, x.getNow), CheckMisses(r, x.missNow));
  }

  lemma ThreeSteps(c: Config, s: World, x: Event, y: Event, z: Event)
    ensures AfterEvents(c, s, [x, y, z]) == Step(c, Step(c, Step(c, s, x), y), z)
  {
    hide Step, AfterEvents;
    assert [x, y, z] == [x] + [y] + [z];
    AfterOne(c, s, x);
    Snoc(c, s, [x], y);
    Snoc(c, s, [x] + [y], z);
  }

  lemma EndFails(c: Config, reserved: bool, bin: string, x: Conditions, db: Table)
    ensures var end := FlightEnd(c, reserved, bin, x, db); end.Finished? ==> end.answer.Failed?
  {
    hide ValidEnrichment, GetByBin;
  }

  lemma FlightIsARun(c: Config, s: World, r: nat, bin: string, x: Conditions, reserved: bool,
                     db': Table, cache': Items<Response>, misses': Items<bool>, answer: Answer, t: World)
    requires Quiet(s, r, bin) && (reserved ==> c.handy)
    requires Underway(s, r, bin, Reading, s.db, s.cache, s.misses, Step(c, t, Enter(r)))
    requires t == AfterEvents(c, s, Checks(r, bin, x))
    requires EndsWith(FlightEnd(c, reserved, bin, x, s.db), x, answer)
    requires db' == TableAtEnd(FlightEnd(c, reserved, bin, x, s.db), x, s.db)
    requires CachesAtEnd(bin, x, answer, s.cache, s.misses, cache', misses')
    ensures exists evs :: Alone(evs) && Settled(s, r, bin, answer, db', cache', misses', AfterEvents(c, s, evs))
  {
    hide *;
    var end := FlightEnd(c, reserved, bin, x, s.db);
    var t1 := Step(c, t, Enter(r));
    var t2 := AfterChain(c, t1, bin, x, reserved);
    var t3 := Step(c, t2, Upsert(bin, x.upsert));
    ToEnd(c, s, r, bin, t1, x, reserved);
    SavesTo(c, s, r, bin, end, t2, x);
    EndFails(c, reserved, bin, x, s.db);
    var orderC, orderM := CachesTo(c, s, r, bin, end, db', t3, x, answer, cache', misses');
    var t4 := AfterCaches(c, t3, bin, x, orderC, orderM);
    ReleasesTo(c, s, r, bin, t4, answer, db', cache', misses');
    FlightFold(c, t, r, bin, x, reserved, orderC, orderM);
    AfterMore(c, s, Checks(r, bin, x), Flight(r, bin, x, reserved, orderC, orderM));
    var evs := Checks(r, bin, x) + Flight(r, bin, x, reserved, orderC, orderM);
    CallIsAlone(r, bin, x, reserved, orderC, orderM);
    assert Settled(s, r, bin, answer, db', cache', misses', AfterEvents(c, s, evs));
  }

  lemma Snoc(c: Config, s: World, evs: seq<Event>, ev: Event)
    ensures AfterEvents(c, s, evs + [ev]) == Step(c, AfterEvents(c, s, evs), ev)
  {
    hide Step;
    assert (evs + [ev])[..|evs|] == evs;
  }

  lemma FlightFold(c: Config, t: World, r: nat, bin: string, x: Conditions, reserved: bool, orderC: seq<string>,
                   orderM: seq<string>)
    ensures var t1 := Step(c, t, Enter(r));
            var t2 := AfterChain(c, t1, bin, x, reserved);
            var t3 := Step(c, t2, Upsert(bin, x.upsert));
            var t4 := AfterCaches(c, t3, bin, x, orderC, orderM);
            AfterEvents(c, t, Flight(r, bin, x, reserved, orderC, orderM)) == Step(c, t4, Release(bin))
  {
    hide Step, AfterEvents;
    var a := [Enter(r), Read(bin, x.readOk), Reserve(bin, reserved)];
    var b := [AskHandy(bin, x.handy), AskBinlist(bin, x.binlist), Upsert(bin, x.upsert)];
    var d := [SetCache(bin, orderC, x.evictNow, x.setNow), SetMisses(bin, orderM, x.evictNow, x.setNow), Release(bin)];
    assert Flight(r, bin, x, reserved, orderC, orderM) == a + b + d;
    hide Flight;
    AfterMore(c, t, a + b, d);
    AfterMore(c, t, a, b);
    var ta := AfterEvents(c, t, a);
    var tb := AfterEvents(c, ta, b);
    ThreeSteps(c, t, a[0], a[1], a[2]);
    ThreeSteps(c, ta, b[0], b[1], b[2]);
    ThreeSteps(c, tb, d[0], d[1], d[2]);
  }

  // ----- the negative cache is not coherent -----

  /** What the first call of `MissesCanLag` meets, and the second. */
  function Nothing(now: int): Conditions {
    Conditions(now, now, now, now, true, 0, Answered, CircuitBreaker.NotFound, CircuitBreaker.NotFound, Stored)
  }

  function Something(now: int, r: BinlistAnswer): Conditions {
    Nothing(now).(binlist := CircuitBreaker.Found(r))
  }

  function MissesAfter(key: string, now: int): Items<bool> { map[key := Entry(true, now + MISS_TTL)] }

  lemma FirstCall(c: Config, key: string, now: int)
    requires c.enrich && ValidBin(key)
    ensures LookupEffect(c, false, key, Nothing(now), map[], map[], map[], map[], map[], MissesAfter(key, now), Absent)
  {
    hide ValidBin;
    assert IsOrder([], {});
    assert AfterSet(map[], MAX_MISSES, MISS_TTL, key, true, [], now, now) == MissesAfter(key, now);
  }

  lemma SecondCall(c: Config, key: string, other: string, now: int, r: BinlistAnswer)
    requires c.enrich && ValidEnrichment(FromBinlist(key, r)) && key != other
    ensures var b := FromBinlist(key, r);
            LookupEffect(c, false, key, Something(now, r), map[], map[], MissesAfter(other, now),
                         map[key := b], map[key := Entry(ToResponse(b), now + TTL)], MissesAfter(other, now),
                         Hit(ToResponse(b)))
  {
    hide ValidEnrichment, ToResponse;
    var b := FromBinlist(key, r);
    assert IsOrder([], {});
    assert AfterSet(map[], MAX_ENTRIES, TTL, key, ToResponse(b), [], now, now)
      == map[key := Entry(ToResponse(b), now + TTL)];
    assert b.bin == key;
  }

  lemma Prefix(key: string)
    requires ValidBin(key) && |key| == 8
    ensures ValidBin(key[..6]) && key[..6] != key
  {
  }

  /**
   Unlike found answers, a remembered miss can disagree with the store although nobody else writes it:
   an eight-digit BIN is looked up in vain, and then its six-digit prefix is enriched.
  */
  lemma MissesCanLag(c: Config, key: string, now: int, r: BinlistAnswer)
    requires c.enrich && ValidBin(key) && |key| == 8 && ValidEnrichment(FromBinlist(key[..6], r))
    ensures exists evs :: Alone(evs) && Lags(AfterEvents(c, Start(map[]), evs), key, now)
  {
    hide *;
    var six := key[..6];
    Prefix(key);
    FirstCall(c, key, now);
    SecondCall(c, six, key, now, r);
    AtStart(0, key);
    CallIsARun(c, Start(map[]), 0, key, Nothing(now), false, map[], map[], MissesAfter(key, now), Absent);
    var a :| Alone(a) && Settled(Start(map[]), 0, key, Absent, map[], map[], MissesAfter(key, now),
                              AfterEvents(c, Start(map[]), a));
    var s := AfterEvents(c, Start(map[]), a);
    QuietAgain(s, key, six, now);
    var b := FromBinlist(six, r);
    var cached := map[six := Entry(ToResponse(b), now + TTL)];
    CallIsARun(c, s, 1, six, Something(now, r), false, map[six := b], cached, MissesAfter(key, now),
      Hit(ToResponse(b)));
    var d :| Alone(d) && Settled(s, 1, six, Hit(ToResponse(b)), map[six := b], cached, MissesAfter(key, now),
                                 AfterEvents(c, s, d));
    AfterMore(c, Start(map[]), a, d);
    LagsNow(s, key, b, cached, now, AfterEvents(c, s, d));
    BothAlone(a, d);
    assert Alone(a + d) && Lags(AfterEvents(c, Start(map[]), a + d), key, now);
  }

  /** The negative cache serves a miss for a key that the store would find. */
  ghost predicate Lags(s: World, key: string, now: int) {
    Find(s.misses, key, now).Some? && GetByBin(s.db, key).Some?
  }

  lemma AtStart(r: nat, key: string)
    requires ValidBin(key)
    ensures Quiet(Start(map[]), r, key) && Start(map[]).db == map[] && Start(map[]).cache == map[]
            && Start(map[]).misses == map[]
  {
    hide ValidBin;
  }

  lemma QuietAgain(s: World, key: string, six: string, now: int)
    requires Settled(Start(map[]), 0, key, Absent, map[], map[], MissesAfter(key, now), s) && ValidBin(six)
    ensures Quiet(s, 1, six) && s.db == map[] && s.cache == map[] && s.misses == MissesAfter(key, now)
  {
    hide ValidBin;
  }

  lemma LagsNow(s: World, key: string, b: Bin, cached: Items<Response>, now: int, t: World)
    requires |key| == 8
    requires Settled(s, 1, key[..6], Hit(ToResponse(b)), map[key[..6] := b], cached, MissesAfter(key, now), t)
    ensures Lags(t, key, now)
  {
    hide ToResponse;
  }

  lemma BothAlone(a: seq<Event>, d: seq<Event>)
    requires Alone(a) && Alone(d)
    ensures Alone(a + d)
  {
  }
}
