/**
 The lookup protocol of one process (internal/service/bin_service.go): any number of requests,
 one flight per key, the provider chain, both caches and the table, interleaved step by step.

 An event that cannot happen in a state changes nothing, so every sequence of events is a run.
 `singleflight` is taken by its contract: a request whose key has a flight joins it, and the
 flight's answer is delivered to everybody who joined.
*/
module LookupProtocol {
  import opened Wrappers
  import opened Validator
  import opened Bins
  import opened Store
  import opened TtlCache
  import opened LookupService
  import CircuitBreaker

  datatype Phase = Fresh | CacheMissed | NotCached | Waiting | Done(answer: Answer)

  datatype Request = Request(key: string, phase: Phase)

  /** `obtained` is a history variable: every response a flight has read from, or written to, the store. */
  datatype World = World(
    db: Table, cache: Items<Response>, misses: Items<bool>,
    flights: map<string, Stage>, requests: map<nat, Request>,
    obtained: set<(string, Response)>)

  datatype Event =
    | Arrive(r: nat, key: string)
    | CheckCache(r: nat, now: int)
    | CheckMisses(r: nat, now: int)
    | Enter(r: nat)
    | Read(key: string, ok: bool)
    | Reserve(key: string, reserved: bool)
    | AskHandy(key: string, handy: CircuitBreaker.Outcome<HandyAnswer>)
    | AskBinlist(key: string, binlist: CircuitBreaker.Outcome<BinlistAnswer>)
    | Upsert(key: string, reply: UpsertReply)
    | SetCache(key: string, order: seq<string>, evictNow: int, setNow: int)
    | SetMisses(key: string, order: seq<string>, evictNow: int, setNow: int)
    | Release(key: string)
    | CleanCache(now: int)
    | CleanMisses(now: int)
    | OtherWriter(db: Table)

  function Start(db: Table): World { World(db, map[], map[], map[], map[], {}) }

  // ----- steps -----

  predicate At(s: World, r: nat, p: Phase) { r in s.requests && s.requests[r].phase == p }

  function SetPhase(s: World, r: nat, p: Phase): World
    requires r in s.requests
  {
    s.(requests := s.requests[r := s.requests[r].(phase := p)])
  }

  predicate InStage(s: World, key: string, stage: Stage) { key in s.flights && s.flights[key] == stage }

  function MoveTo(s: World, key: string, stage: Stage): World {
    s.(flights := s.flights[key := stage],
       obtained := if stage.Holding? then s.obtained + {(key, ToResponse(stage.record))} else s.obtained)
  }

  function Deliver(requests: map<nat, Request>, key: string, a: Answer): map<nat, Request> {
    map r | r in requests ::
      if requests[r] == Request(key, Waiting) then Request(key, Done(a)) else requests[r]
  }

  function Phase1(found: Option<Response>): Phase {
    if found.Some? then Done(Hit(found.value)) else CacheMissed
  }

  function Phase2(missed: Option<bool>): Phase {
    if missed.Some? then Done(Absent) else NotCached
  }

  /** What requests do. */
  ghost function RequestStep(s: World, ev: Event): World {
    match ev
    case Arrive(r, key) =>
      if r in s.requests || !ValidBin(key) then s else s.(requests := s.requests[r := Request(key, Fresh)])
    case CheckCache(r, now) =>
      if At(s, r, Fresh) then SetPhase(s, r, Phase1(Find(s.cache, s.requests[r].key, now))) else s
    case CheckMisses(r, now) =>
      if At(s, r, CacheMissed) then SetPhase(s, r, Phase2(Find(s.misses, s.requests[r].key, now))) else s
    case Enter(r) =>
      if At(s, r, NotCached) then
        var w := SetPhase(s, r, Waiting);
        if s.requests[r].key in s.flights then w else MoveTo(w, s.requests[r].key, Reading)
      else s
    case Release(key) =>
      if key in s.flights && s.flights[key].Finished? then
        s.(flights := s.flights - {key}, requests := Deliver(s.requests, key, s.flights[key].answer))
      else s
    case _ => s
  }

  /** What the flight for a key does. */
  ghost function FlightStep(c: Config, s: World, ev: Event): World {
    match ev
    case Read(key, ok) => if InStage(s, key, Reading) then MoveTo(s, key, AfterRead(c, s.db, key, ok)) else s
    case Reserve(key, reserved) => if InStage(s, key, Reserving) then MoveTo(s, key, AfterReserve(reserved)) else s
    case AskHandy(key, handy) => if InStage(s, key, AskingHandy) then MoveTo(s, key, AfterHandy(key, handy)) else s
    case AskBinlist(key, binlist) =>
      if InStage(s, key, AskingBinlist) then MoveTo(s, key, AfterBinlist(key, binlist)) else s
    case Upsert(key, reply) =>
      if key in s.flights && s.flights[key].Persisting? then
        var b := s.flights[key].record;
        MoveTo(s.(db := TableAfterUpsert(s.db, b, reply)), key, AfterUpsert(b, reply))
      else s
    case SetCache(key, order, evictNow, setNow) =>
      if key in s.flights && s.flights[key].Holding? && IsOrder(order, s.cache.Keys) then
        var v := ToResponse(s.flights[key].record);
        MoveTo(s.(cache := AfterSet(s.cache, MAX_ENTRIES, TTL, key, v, order, evictNow, setNow)), key, Finished(Hit(v)))
      else s
    case SetMisses(key, order, evictNow, setNow) =>
      if InStage(s, key, Missing) && IsOrder(order, s.misses.Keys) then
        MoveTo(s.(misses := AfterSet(s.misses, MAX_MISSES, MISS_TTL, key, true, order, evictNow, setNow)),
               key, Finished(Absent))
      else s
    case _ => s
  }

  /** What happens by itself. */
  function BackgroundStep(s: World, ev: Event): World {
    match ev
    case CleanCache(now) => s.(cache := LivePart(s.cache, now))
    case CleanMisses(now) => s.(misses := LivePart(s.misses, now))
    case OtherWriter(db) => s.(db := db)
    case _ => s
  }

  predicate OfRequest(ev: Event) {
    ev.Arrive? || ev.CheckCache? || ev.CheckMisses? || ev.Enter? || ev.Release?
  }

  predicate OfBackground(ev: Event) { ev.CleanCache? || ev.CleanMisses? || ev.OtherWriter? }

  ghost function Step(c: Config, s: World, ev: Event): World {
    if OfRequest(ev) then RequestStep(s, ev)
    else if OfBackground(ev) then BackgroundStep(s, ev)
    else FlightStep(c, s, ev)
  }

  ghost predicate IsRun(c: Config, evs: seq<Event>, states: seq<World>) {
    && |states| == |evs| + 1
    && states[0] == Start(states[0].db)
    && forall i | 0 <= i < |evs| :: states[i + 1] == Step(c, states[i], evs[i])
  }

  /** Nobody else writes the table, and at the start its rows are filed under their BINs. */
  ghost predicate OnlyWriter(evs: seq<Event>, states: seq<World>) {
    && (forall i | 0 <= i < |evs| :: !evs[i].OtherWriter?)
    && states != [] && Keyed(states[0].db)
  }

  ghost predicate Keyed(db: Table) { forall k | k in db :: db[k].bin == k }

  // ----- what a step leaves alone -----

  predicate OfFlight(ev: Event) { !OfRequest(ev) && !OfBackground(ev) }

  /** Only its own events move a flight; others can at most start it. */
  lemma OthersLeaveStage(c: Config, s: World, ev: Event, key: string)
    requires key in Step(c, s, ev).flights && !(OfFlight(ev) && ev.key == key)
    ensures (key in s.flights && Step(c, s, ev).flights[key] == s.flights[key]) || InStage(Step(c, s, ev), key, Reading)
  {
    hide AfterSet, IsOrder, ToResponse, ValidBin, Find, Deliver, LivePart, AfterRead, AfterHandy, AfterBinlist,
         AfterReserve, AfterUpsert, TableAfterUpsert;
    if OfRequest(ev) {
      hide FlightStep, BackgroundStep;
    } else {
      hide RequestStep;
    }
  }

  /** A flight's own events neither start nor end it. */
  lemma FlightStepKeys(c: Config, s: World, ev: Event, key: string)
    ensures key in FlightStep(c, s, ev).flights <==> key in s.flights
  {
    hide AfterSet, IsOrder, ToResponse, AfterRead, AfterHandy, AfterBinlist, AfterReserve, AfterUpsert,
         TableAfterUpsert;
  }

  /** The step is an upsert by a flight that has a record to store. */
  predicate Upserts(s: World, ev: Event) { ev.Upsert? && ev.key in s.flights && s.flights[ev.key].Persisting? }

  lemma OnlyUpsertsWrite(c: Config, s: World, ev: Event)
    requires !ev.OtherWriter?
    ensures Step(c, s, ev).db
         == if Upserts(s, ev) then TableAfterUpsert(s.db, s.flights[ev.key].record, ev.reply) else s.db
  {
    hide AfterSet, IsOrder, ToResponse, ValidBin, Find, Deliver, LivePart, AfterRead, AfterHandy, AfterBinlist,
         AfterReserve, AfterUpsert, TableAfterUpsert;
    if OfRequest(ev) {
      hide FlightStep, BackgroundStep;
    } else {
      hide RequestStep;
    }
  }

  // ----- where responses come from, whoever writes the table -----

  ghost predicate CacheSourced(s: World) { forall k | k in s.cache :: (k, s.cache[k].value) in s.obtained }

  ghost predicate FlightSourced(s: World, k: string)
    requires k in s.flights
  {
    match s.flights[k]
    case Holding(b) => (k, ToResponse(b)) in s.obtained
    case Finished(Hit(v)) => (k, v) in s.obtained
    case _ => true
  }

  ghost predicate FlightsSourced(s: World) { forall k | k in s.flights :: FlightSourced(s, k) }

  ghost predicate RequestSourced(s: World, r: nat)
    requires r in s.requests
  {
    match s.requests[r].phase
    case Done(Hit(v)) => (s.requests[r].key, v) in s.obtained
    case _ => true
  }

  ghost predicate RequestsSourced(s: World) { forall r | r in s.requests :: RequestSourced(s, r) }

  ghost predicate Sourced(s: World) { CacheSourced(s) && FlightsSourced(s) && RequestsSourced(s) }

  lemma RequestStepSourced(s: World, ev: Event)
    requires Sourced(s)
    ensures Sourced(RequestStep(s, ev))
  {
    hide ToResponse, Live, ValidBin;
    match ev
    case Release(key) =>
      if key in s.flights && s.flights[key].Finished? {
        assert FlightSourced(s, key);
        DeliverSourced(s, key);
      }
    case _ =>
  }

  lemma DeliverSourced(s: World, key: string)
    requires Sourced(s) && key in s.flights && s.flights[key].Finished?
    ensures Sourced(RequestStep(s, Release(key)))
  {
    var t := RequestStep(s, Release(key));
    assert FlightSourced(s, key);
    forall r | r in t.requests ensures RequestSourced(t, r) { assert RequestSourced(s, r); }
    forall k | k in t.flights ensures FlightSourced(t, k) { assert FlightSourced(s, k); }
  }

  lemma MoveSourced(s: World, key: string, stage: Stage)
    requires Sourced(s)
    requires match stage case Finished(Hit(v)) => (key, v) in s.obtained case _ => true
    ensures Sourced(MoveTo(s, key, stage))
  {
    hide ToResponse;
    var t := MoveTo(s, key, stage);
    forall r | r in t.requests ensures RequestSourced(t, r) { assert RequestSourced(s, r); }
    forall k | k in t.flights ensures FlightSourced(t, k) {
      if k != key { assert FlightSourced(s, k); }
    }
  }

  lemma SetSourced(s: World, key: string, order: seq<string>, evictNow: int, setNow: int)
    requires Sourced(s) && key in s.flights && s.flights[key].Holding? && IsOrder(order, s.cache.Keys)
    ensures var v := ToResponse(s.flights[key].record);
            Sourced(s.(cache := AfterSet(s.cache, MAX_ENTRIES, TTL, key, v, order, evictNow, setNow)))
  {
    hide ToResponse;
    assert FlightSourced(s, key);
    var v := ToResponse(s.flights[key].record);
    var t := s.(cache := AfterSet(s.cache, MAX_ENTRIES, TTL, key, v, order, evictNow, setNow));
    forall r | r in t.requests ensures RequestSourced(t, r) { assert RequestSourced(s, r); }
    forall k | k in t.flights ensures FlightSourced(t, k) { assert FlightSourced(s, k); }
  }

  lemma FlightStepSourced(c: Config, s: World, ev: Event)
    requires Sourced(s)
    ensures Sourced(FlightStep(c, s, ev))
  {
    hide ToResponse, MoveTo, AfterSet, ValidEnrichment, Sourced;
    match ev
    case Read(key, ok) => MoveSourced(s, key, AfterRead(c, s.db, key, ok));
    case Reserve(key, reserved) => MoveSourced(s, key, AfterReserve(reserved));
    case AskHandy(key, handy) => MoveSourced(s, key, AfterHandy(key, handy));
    case AskBinlist(key, binlist) => MoveSourced(s, key, AfterBinlist(key, binlist));
    case Upsert(key, reply) =>
      if key in s.flights && s.flights[key].Persisting? {
        var b := s.flights[key].record;
        var t := s.(db := TableAfterUpsert(s.db, b, reply));
        OtherTable(s, t.db);
        MoveSourced(t, key, AfterUpsert(b, reply));
      }
    case SetCache(key, order, evictNow, setNow) =>
      if key in s.flights && s.flights[key].Holding? && IsOrder(order, s.cache.Keys) {
        SetSourced(s, key, order, evictNow, setNow);
        HeldSourced(s, key);
        var v := ToResponse(s.flights[key].record);
        var t := s.(cache := AfterSet(s.cache, MAX_ENTRIES, TTL, key, v, order, evictNow, setNow));
        MoveSourced(t, key, Finished(Hit(v)));
      }
    case SetMisses(key, order, evictNow, setNow) =>
      if InStage(s, key, Missing) && IsOrder(order, s.misses.Keys) {
        var t := s.(misses := AfterSet(s.misses, MAX_MISSES, MISS_TTL, key, true, order, evictNow, setNow));
        OtherMisses(s, t.misses);
        MoveSourced(t, key, Finished(Absent));
      }
    case _ =>
  }

  lemma HeldSourced(s: World, key: string)
    requires Sourced(s) && key in s.flights && s.flights[key].Holding?
    ensures (key, ToResponse(s.flights[key].record)) in s.obtained
  {
    hide ToResponse;
    assert FlightSourced(s, key);
  }

  lemma OtherTable(s: World, db: Table)
    requires Sourced(s)
    ensures Sourced(s.(db := db))
  {
    var t := s.(db := db);
    forall r | r in t.requests ensures RequestSourced(t, r) { assert RequestSourced(s, r); }
    forall k | k in t.flights ensures FlightSourced(t, k) { assert FlightSourced(s, k); }
  }

  lemma OtherMisses(s: World, misses: Items<bool>)
    requires Sourced(s)
    ensures Sourced(s.(misses := misses))
  {
    var t := s.(misses := misses);
    forall r | r in t.requests ensures RequestSourced(t, r) { assert RequestSourced(s, r); }
    forall k | k in t.flights ensures FlightSourced(t, k) { assert FlightSourced(s, k); }
  }

  lemma FewerCached(s: World, cache: Items<Response>)
    requires Sourced(s) && forall k | k in cache :: k in s.cache && cache[k] == s.cache[k]
    ensures Sourced(s.(cache := cache))
  {
    var t := s.(cache := cache);
    forall r | r in t.requests ensures RequestSourced(t, r) { assert RequestSourced(s, r); }
    forall k | k in t.flights ensures FlightSourced(t, k) { assert FlightSourced(s, k); }
  }

  lemma StepSourced(c: Config, s: World, ev: Event)
    requires Sourced(s)
    ensures Sourced(Step(c, s, ev))
  {
    hide RequestStep, FlightStep, Sourced;
    RequestStepSourced(s, ev);
    FlightStepSourced(c, s, ev);
    match ev
    case CleanCache(now) => FewerCached(s, LivePart(s.cache, now));
    case CleanMisses(now) => OtherMisses(s, LivePart(s.misses, now));
    case OtherWriter(db) => OtherTable(s, db);
    case _ =>
  }

  lemma {:induction false} RunSourced(c: Config, evs: seq<Event>, states: seq<World>, i: nat)
    requires IsRun(c, evs, states) && i <= |evs|
    ensures Sourced(states[i])
  {
    hide Step;
    if i > 0 {
      RunSourced(c, evs, states, i - 1);
      StepSourced(c, states[i - 1], evs[i - 1]);
    }
  }

  // ----- agreement with the store, when nobody else writes it -----

  /** Past a read that found nothing, and not yet persisted or given up. */
  predicate Enriching(stage: Stage) {
    stage.Reserving? || stage.AskingHandy? || stage.AskingBinlist? || stage.Persisting?
  }

  ghost predicate Untold(s: World, key: string) { forall p | p in s.obtained :: p.0 != key }

  ghost predicate Truthful(s: World) { forall p | p in s.obtained :: Agrees(s.db, p.0, p.1) }

  /** An enriching flight's key has no row and has never been answered; what it persists is that key's row. */
  ghost predicate EnrichOk(s: World, key: string, stage: Stage) {
    Enriching(stage) ==> key !in s.db && Untold(s, key) && (stage.Persisting? ==> stage.record.bin == key)
  }

  ghost predicate Agreed(s: World) {
    && Keyed(s.db)
    && Truthful(s)
    && forall k | k in s.flights :: EnrichOk(s, k, s.flights[k])
  }

  lemma MoveAgreed(s: World, key: string, stage: Stage)
    requires Agreed(s) && EnrichOk(s, key, stage)
    requires stage.Holding? ==> Agrees(s.db, key, ToResponse(stage.record))
    ensures Agreed(MoveTo(s, key, stage))
  {
    hide Agrees, ToResponse;
    var t := MoveTo(s, key, stage);
    forall k | k in t.flights ensures EnrichOk(t, k, t.flights[k]) {
      if k != key { assert EnrichOk(s, k, s.flights[k]); }
    }
  }

  lemma ReadAgreed(c: Config, s: World, key: string, ok: bool)
    requires Agreed(s)
    ensures EnrichOk(s, key, AfterRead(c, s.db, key, ok))
    ensures AfterRead(c, s.db, key, ok).Holding? ==> Agrees(s.db, key, ToResponse(AfterRead(c, s.db, key, ok).record))
  {
    hide ToResponse;
  }

  lemma HandyAgreed(s: World, key: string, handy: CircuitBreaker.Outcome<HandyAnswer>)
    requires Agreed(s) && InStage(s, key, AskingHandy)
    ensures EnrichOk(s, key, AfterHandy(key, handy)) && !AfterHandy(key, handy).Holding?
  {
    hide ValidEnrichment, Agrees;
    assert EnrichOk(s, key, s.flights[key]);
  }

  lemma BinlistAgreed(s: World, key: string, binlist: CircuitBreaker.Outcome<BinlistAnswer>)
    requires Agreed(s) && InStage(s, key, AskingBinlist)
    ensures EnrichOk(s, key, AfterBinlist(key, binlist)) && !AfterBinlist(key, binlist).Holding?
  {
    hide ValidEnrichment, Agrees;
    assert EnrichOk(s, key, s.flights[key]);
  }

  /** An upsert adds a row for an absent key; it changes no answer that was ever given. */
  lemma UpsertAgreed(c: Config, s: World, key: string, reply: UpsertReply)
    requires Agreed(s) && key in s.flights && s.flights[key].Persisting?
    ensures key !in s.db && s.flights[key].record.bin == key
    ensures Agreed(FlightStep(c, s, Upsert(key, reply)))
  {
    assert EnrichOk(s, key, s.flights[key]);
    var b := s.flights[key].record;
    var t := s.(db := TableAfterUpsert(s.db, b, reply), flights := s.flights - {key});
    RowAgreed(s, key, reply);
    hide Agreed, EnrichOk, Agrees, ToResponse, TableAfterUpsert;
    SavedAgreed(s, key, reply);
    MoveAgreed(t, key, AfterUpsert(b, reply));
    assert t.flights[key := AfterUpsert(b, reply)] == s.flights[key := AfterUpsert(b, reply)];
  }

  /** The other flights, and everything ever obtained, still agree with the table. */
  lemma RowAgreed(s: World, key: string, reply: UpsertReply)
    requires Agreed(s) && key in s.flights && s.flights[key].Persisting?
    ensures Agreed(s.(db := TableAfterUpsert(s.db, s.flights[key].record, reply), flights := s.flights - {key}))
  {
    assert EnrichOk(s, key, s.flights[key]);
    var b := s.flights[key].record;
    var t := s.(db := TableAfterUpsert(s.db, b, reply), flights := s.flights - {key});
    hide ToResponse;
    forall p | p in t.obtained ensures Agrees(t.db, p.0, p.1) {
      if reply != NotStored { NewRowKeepsAnswers(s.db, b, p.0, p.1); }
    }
    hide Agrees;
    forall k | k in t.flights ensures EnrichOk(t, k, t.flights[k]) { assert EnrichOk(s, k, s.flights[k]); }
  }

  /** What the flight itself holds now agrees with the table. */
  lemma SavedAgreed(s: World, key: string, reply: UpsertReply)
    requires Agreed(s) && key in s.flights && s.flights[key].Persisting?
    ensures var b := s.flights[key].record;
            var t := s.(db := TableAfterUpsert(s.db, b, reply), flights := s.flights - {key});
            && EnrichOk(t, key, AfterUpsert(b, reply))
            && (AfterUpsert(b, reply).Holding? ==> Agrees(t.db, key, ToResponse(AfterUpsert(b, reply).record)))
  {
    assert EnrichOk(s, key, s.flights[key]);
    hide ToResponse, Truthful;
  }

  lemma SameTable(s: World, t: World)
    requires Agreed(s) && t.db == s.db && t.obtained == s.obtained
    requires forall k | k in t.flights :: k in s.flights && t.flights[k] == s.flights[k]
    ensures Agreed(t)
  {
    hide Agrees;
    forall k | k in t.flights ensures EnrichOk(t, k, t.flights[k]) { assert EnrichOk(s, k, s.flights[k]); }
  }

  lemma FlightStepAgreed(c: Config, s: World, ev: Event)
    requires Agreed(s)
    ensures Agreed(FlightStep(c, s, ev))
  {
    hide Agreed, AfterRead, AfterHandy, AfterBinlist, MoveTo, AfterSet, ToResponse, Agrees, TableAfterUpsert,
         AfterUpsert;
    match ev
    case Read(key, ok) =>
      ReadAgreed(c, s, key, ok);
      MoveAgreed(s, key, AfterRead(c, s.db, key, ok));
    case Reserve(key, reserved) =>
      if InStage(s, key, Reserving) {
        StageOk(s, key);
        MoveAgreed(s, key, AfterReserve(reserved));
      }
    case AskHandy(key, handy) =>
      if InStage(s, key, AskingHandy) {
        HandyAgreed(s, key, handy);
        MoveAgreed(s, key, AfterHandy(key, handy));
      }
    case AskBinlist(key, binlist) =>
      if InStage(s, key, AskingBinlist) {
        BinlistAgreed(s, key, binlist);
        MoveAgreed(s, key, AfterBinlist(key, binlist));
      }
    case Upsert(key, reply) =>
      if key in s.flights && s.flights[key].Persisting? { UpsertAgreed(c, s, key, reply); }
    case SetCache(key, order, evictNow, setNow) =>
      if key in s.flights && s.flights[key].Holding? && IsOrder(order, s.cache.Keys) {
        var v := ToResponse(s.flights[key].record);
        var t := s.(cache := AfterSet(s.cache, MAX_ENTRIES, TTL, key, v, order, evictNow, setNow));
        SameTable(s, t);
        MoveAgreed(t, key, Finished(Hit(v)));
      }
    case SetMisses(key, order, evictNow, setNow) =>
      if InStage(s, key, Missing) && IsOrder(order, s.misses.Keys) {
        var t := s.(misses := AfterSet(s.misses, MAX_MISSES, MISS_TTL, key, true, order, evictNow, setNow));
        SameTable(s, t);
        MoveAgreed(t, key, Finished(Absent));
      }
    case _ =>
  }

  lemma StageOk(s: World, key: string)
    requires Agreed(s) && key in s.flights
    ensures EnrichOk(s, key, s.flights[key])
  {
    hide Agrees;
  }

  lemma RequestStepAgreed(s: World, ev: Event)
    requires Agreed(s)
    ensures Agreed(RequestStep(s, ev))
  {
    hide Agreed, MoveTo, Find, ValidBin, Deliver, Phase1, Phase2;
    match ev
    case Enter(r) =>
      if At(s, r, NotCached) {
        var w := SetPhase(s, r, Waiting);
        SameTable(s, w);
        MoveAgreed(w, s.requests[r].key, Reading);
      }
    case _ => SameTable(s, RequestStep(s, ev));
  }

  lemma StepAgreed(c: Config, s: World, ev: Event)
    requires Agreed(s) && !ev.OtherWriter?
    ensures Agreed(Step(c, s, ev))
  {
    hide RequestStep, FlightStep, Agreed;
    RequestStepAgreed(s, ev);
    FlightStepAgreed(c, s, ev);
    if OfBackground(ev) { SameTable(s, BackgroundStep(s, ev)); }
  }

  lemma {:induction false} RunAgreed(c: Config, evs: seq<Event>, states: seq<World>, i: nat)
    requires IsRun(c, evs, states) && OnlyWriter(evs, states) && i <= |evs|
    ensures Agreed(states[i])
  {
    hide Step;
    if i > 0 {
      RunAgreed(c, evs, states, i - 1);
      StepAgreed(c, states[i - 1], evs[i - 1]);
    }
  }

  // ----- coherence -----

  /**
   Over every interleaving, with no other writer: each entry of the positive cache, live or expired,
   is the store's current answer for its key, also an eight-digit key cached from a six-digit row.
  */
  lemma CacheCoherent(c: Config, evs: seq<Event>, states: seq<World>, i: nat)
    requires IsRun(c, evs, states) && OnlyWriter(evs, states) && i <= |evs|
    ensures Coherent(states[i].db, states[i].cache)
  {
    hide Step, Agrees;
    RunSourced(c, evs, states, i);
    RunAgreed(c, evs, states, i);
  }

  lemma DoneStays(c: Config, s: World, ev: Event, r: nat)
    requires r in s.requests && s.requests[r].phase.Done?
    ensures r in Step(c, s, ev).requests && Step(c, s, ev).requests[r] == s.requests[r]
  {
    hide AfterRead, AfterHandy, AfterBinlist, AfterSet, IsOrder, ToResponse, ValidBin, Find;
  }

  lemma {:induction false} StillDone(c: Config, evs: seq<Event>, states: seq<World>, i: nat, j: nat, r: nat)
    requires IsRun(c, evs, states) && i <= j <= |evs|
    requires r in states[i].requests && states[i].requests[r].phase.Done?
    ensures r in states[j].requests && states[j].requests[r] == states[i].requests[r]
  {
    hide Step;
    if i < j {
      StillDone(c, evs, states, i, j - 1, r);
      DoneStays(c, states[j - 1], evs[j - 1], r);
    }
  }

  /** A found answer, once given, is the store's answer from then on. */
  lemma AnswersStayTrue(c: Config, evs: seq<Event>, states: seq<World>, i: nat, j: nat, r: nat)
    requires IsRun(c, evs, states) && OnlyWriter(evs, states) && i <= j <= |evs|
    requires r in states[i].requests && states[i].requests[r].phase.Done? && states[i].requests[r].phase.answer.Hit?
    ensures Agrees(states[j].db, states[i].requests[r].key, states[i].requests[r].phase.answer.response)
  {
    hide Step, Agrees;
    StillDone(c, evs, states, i, j, r);
    RunSourced(c, evs, states, j);
    RunAgreed(c, evs, states, j);
    assert RequestSourced(states[j], r);
  }

  /** So all requests that are ever told a record for one BIN are told the same one. */
  lemma SameAnswers(c: Config, evs: seq<Event>, states: seq<World>, i: nat, q: nat, r: nat)
    requires IsRun(c, evs, states) && OnlyWriter(evs, states) && i <= |evs|
    requires q in states[i].requests && r in states[i].requests
             && states[i].requests[q].key == states[i].requests[r].key
    requires states[i].requests[q].phase.Done? && states[i].requests[q].phase.answer.Hit?
    requires states[i].requests[r].phase.Done? && states[i].requests[r].phase.answer.Hit?
    ensures states[i].requests[q] == states[i].requests[r]
  {
    hide Step;
    AnswersStayTrue(c, evs, states, i, i, q);
    AnswersStayTrue(c, evs, states, i, i, r);
  }

  // ----- rows are written once -----

  /** The event stores a row for `key`. */
  ghost predicate Persists(s: World, ev: Event, key: string) {
    ev.Upsert? && ev.key == key && ev.reply != NotStored && key in s.flights && s.flights[key].Persisting?
  }

  /** At every step that stores a row, its key is absent, and no request was ever told a record for it. */
  lemma NeverOverwrites(c: Config, evs: seq<Event>, states: seq<World>, i: nat, key: string)
    requires IsRun(c, evs, states) && OnlyWriter(evs, states) && i < |evs| && Persists(states[i], evs[i], key)
    ensures key !in states[i].db && key !in states[i].cache
    ensures states[i + 1].db == Upserted(states[i].db, states[i].flights[key].record)
    ensures states[i].flights[key].record.bin == key
    ensures forall r | r in states[i].requests && states[i].requests[r].key == key ::
              !(states[i].requests[r].phase.Done? && states[i].requests[r].phase.answer.Hit?)
  {
    hide Agrees, IsOrder, AfterSet, ToResponse;
    RunSourced(c, evs, states, i);
    RunAgreed(c, evs, states, i);
    assert EnrichOk(states[i], key, states[i].flights[key]);
    forall r | r in states[i].requests && states[i].requests[r].key == key
      ensures !(states[i].requests[r].phase.Done? && states[i].requests[r].phase.answer.Hit?)
    {
      assert RequestSourced(states[i], r);
    }
  }

  lemma StepKeepsRows(c: Config, s: World, ev: Event, k: string)
    requires Agreed(s) && !ev.OtherWriter? && k in s.db
    ensures k in Step(c, s, ev).db && Step(c, s, ev).db[k] == s.db[k]
  {
    OnlyUpsertsWrite(c, s, ev);
    if Upserts(s, ev) {
      StageOk(s, ev.key);
    }
    hide Step, Agreed;
  }

  /** Rows are never changed or deleted. */
  lemma {:induction false} RowsStay(c: Config, evs: seq<Event>, states: seq<World>, i: nat, j: nat, k: string)
    requires IsRun(c, evs, states) && OnlyWriter(evs, states) && i <= j <= |evs| && k in states[i].db
    ensures k in states[j].db && states[j].db[k] == states[i].db[k]
  {
    hide Step, Agreed;
    if i < j {
      RowsStay(c, evs, states, i, j - 1, k);
      RunAgreed(c, evs, states, j - 1);
      StepKeepsRows(c, states[j - 1], evs[j - 1], k);
    }
  }

  /** Each BIN is persisted at most once. */
  lemma PersistedOnce(c: Config, evs: seq<Event>, states: seq<World>, i: nat, j: nat, key: string)
    requires IsRun(c, evs, states) && OnlyWriter(evs, states) && i < j < |evs|
    requires Persists(states[i], evs[i], key)
    ensures !Persists(states[j], evs[j], key)
  {
    hide Step, Persists, Agrees;
    NeverOverwrites(c, evs, states, i, key);
    RowsStay(c, evs, states, i + 1, j, key);
    if Persists(states[j], evs[j], key) {
      NeverOverwrites(c, evs, states, j, key);
    }
  }
}
