/**
 Histories of the lookup protocol, also when importers and other instances write the table:
 where each cached answer came from and how old it can be, what makes a flight ask a provider,
 and that flights end, keep their answer and lose nobody (internal/service/bin_service.go).
*/
module LookupHistory {
  import opened Wrappers
  import opened Validator
  import opened Bins
  import opened Store
  import opened TtlCache
  import opened LookupService
  import opened LookupProtocol
  import CircuitBreaker

  /** The flight for `key` in state `i` is still the same one in state `n`: a release would have removed it. */
  ghost predicate Aloft(states: seq<World>, key: string, i: nat, n: nat) {
    i <= n < |states| && forall m | i <= m <= n :: key in states[m].flights
  }

  // ----- found answers -----

  /** Event `j` is the one with which the flight for `key` got `b` from the store: it read it or wrote it. */
  ghost predicate Obtains(evs: seq<Event>, states: seq<World>, j: nat, key: string, b: Bin) {
    && j < |evs| && |states| == |evs| + 1
    && key in states[j].flights && InStage(states[j + 1], key, Holding(b))
    && GetByBin(states[j + 1].db, key) == Some(b)
    && (evs[j] == Read(key, true) || (evs[j] == Upsert(key, Stored) && states[j].flights[key] == Persisting(b)))
  }

  ghost predicate PersistsOwn(s: World) {
    forall k | k in s.flights && s.flights[k].Persisting? :: s.flights[k].record.bin == k
  }

  lemma OwnRecord(c: Config, s: World, ev: Event)
    requires PersistsOwn(s) && OfFlight(ev) && ev.key in Step(c, s, ev).flights
    requires Step(c, s, ev).flights[ev.key].Persisting?
    ensures Step(c, s, ev).flights[ev.key].record.bin == ev.key
  {
    hide RequestStep, BackgroundStep, AfterSet, IsOrder, ToResponse, ValidEnrichment, GetByBin;
  }

  lemma StepPersistsOwn(c: Config, s: World, ev: Event)
    requires PersistsOwn(s)
    ensures PersistsOwn(Step(c, s, ev))
  {
    var t := Step(c, s, ev);
    forall k | k in t.flights && t.flights[k].Persisting? ensures t.flights[k].record.bin == k {
      if OfFlight(ev) && ev.key == k {
        OwnRecord(c, s, ev);
      } else {
        OthersLeaveStage(c, s, ev, k);
      }
      hide Step;
    }
  }

  lemma {:induction false} RunPersistsOwn(c: Config, evs: seq<Event>, states: seq<World>, n: nat)
    requires IsRun(c, evs, states) && n <= |evs|
    ensures PersistsOwn(states[n])
  {
    hide Step;
    if n > 0 {
      RunPersistsOwn(c, evs, states, n - 1);
      StepPersistsOwn(c, states[n - 1], evs[n - 1]);
    }
  }

  lemma HoldingStep(c: Config, s: World, ev: Event, key: string, b: Bin)
    requires PersistsOwn(s) && InStage(Step(c, s, ev), key, Holding(b)) && !InStage(s, key, Holding(b))
    ensures key in s.flights && GetByBin(Step(c, s, ev).db, key) == Some(b)
    ensures ev == Read(key, true) || (ev == Upsert(key, Stored) && s.flights[key] == Persisting(b))
  {
    if OfFlight(ev) && ev.key == key {
      hide RequestStep, BackgroundStep, AfterSet, IsOrder, ToResponse, ValidEnrichment;
      FlightStepKeys(c, s, ev, key);
    } else {
      OthersLeaveStage(c, s, ev, key);
      hide Step;
    }
  }

  lemma {:induction false} HoldingFrom(c: Config, evs: seq<Event>, states: seq<World>, n: nat, key: string, b: Bin)
    returns (j: nat)
    requires IsRun(c, evs, states) && n <= |evs| && InStage(states[n], key, Holding(b))
    ensures j < n && Obtains(evs, states, j, key, b) && Aloft(states, key, j, n)
  {
    hide Step, PersistsOwn, GetByBin;
    if n > 0 {
      RunPersistsOwn(c, evs, states, n - 1);
      if InStage(states[n - 1], key, Holding(b)) {
        j := HoldingFrom(c, evs, states, n - 1, key, b);
      } else {
        HoldingStep(c, states[n - 1], evs[n - 1], key, b);
        j := n - 1;
      }
    }
  }

  /** Event `i` caches `v` for `key`, at clock reading `evs[i].setNow`. */
  ghost predicate Caches(evs: seq<Event>, states: seq<World>, i: nat, key: string, v: Response) {
    && i < |evs| && i < |states|
    && evs[i].SetCache? && evs[i].key == key
    && key in states[i].flights && states[i].flights[key].Holding? && ToResponse(states[i].flights[key].record) == v
  }

  lemma CacheStep(c: Config, s: World, ev: Event, key: string)
    requires key in Step(c, s, ev).cache && !(key in s.cache && s.cache[key] == Step(c, s, ev).cache[key])
    ensures ev.SetCache? && ev.key == key && key in s.flights && s.flights[key].Holding?
    ensures Step(c, s, ev).cache[key] == Entry(ToResponse(s.flights[key].record), ev.setNow + TTL)
  {
    hide IsOrder, ToResponse, ValidBin, Find, ValidEnrichment, Deliver, GetByBin, ScanAlong;
  }

  lemma {:induction false} CachedFrom(c: Config, evs: seq<Event>, states: seq<World>, n: nat, key: string)
    returns (i: nat)
    requires IsRun(c, evs, states) && n <= |evs| && key in states[n].cache
    ensures i < n && Caches(evs, states, i, key, states[n].cache[key].value)
    ensures states[n].cache[key].expiresAt == evs[i].setNow + TTL
  {
    hide Step, ToResponse;
    if n > 0 {
      if key in states[n - 1].cache && states[n - 1].cache[key] == states[n].cache[key] {
        i := CachedFrom(c, evs, states, n - 1, key);
      } else {
        CacheStep(c, states[n - 1], evs[n - 1], key);
        i := n - 1;
      }
    }
  }

  /** One and the same flight for `key` obtained `b` from the store (event j) and cached it (event i). */
  ghost predicate StoredThenCached(evs: seq<Event>, states: seq<World>, j: nat, i: nat, key: string, b: Bin) {
    j < i && Obtains(evs, states, j, key, b) && Caches(evs, states, i, key, ToResponse(b)) && Aloft(states, key, j, i)
  }

  /**
   Bounded staleness: whoever else writes the table, an answer served from the cache at `now` was read
   from or written to the store by a flight for that key, which cached it no earlier than `now` - 30 min.
  */
  lemma ServedWithinTtl(c: Config, evs: seq<Event>, states: seq<World>, n: nat, r: nat, now: int)
    requires IsRun(c, evs, states) && n < |evs| && evs[n] == CheckCache(r, now) && At(states[n], r, Fresh)
    requires Find(states[n].cache, states[n].requests[r].key, now).Some?
    ensures r in states[n + 1].requests && states[n + 1].requests[r].phase.Done?
            && states[n + 1].requests[r].phase.answer.Hit?
    ensures exists j: nat, i: nat, b ::
              && j < i < n && StoredThenCached(evs, states, j, i, states[n].requests[r].key, b)
              && states[n + 1].requests[r].phase.answer.response == ToResponse(b)
              && evs[i].setNow >= now - 1800
  {
    hide ToResponse, GetByBin, FlightStep;
    var key := states[n].requests[r].key;
    var i := CachedFrom(c, evs, states, n, key);
    var b := states[i].flights[key].record;
    var j := HoldingFrom(c, evs, states, i, key, b);
    assert StoredThenCached(evs, states, j, i, key, b);
  }

  // ----- not-found answers -----

  /** The flight for `key` reads the store and finds nothing. */
  ghost predicate ReadsNothing(evs: seq<Event>, states: seq<World>, j: nat, key: string) {
    && j < |evs| && j < |states|
    && evs[j] == Read(key, true) && InStage(states[j], key, Reading) && GetByBin(states[j].db, key) == None
  }

  lemma EnrichingStep(c: Config, s: World, ev: Event, key: string)
    requires key in Step(c, s, ev).flights && Enriching(Step(c, s, ev).flights[key])
    ensures key in s.flights
    ensures Enriching(s.flights[key])
         || (c.enrich && ev == Read(key, true) && InStage(s, key, Reading) && GetByBin(s.db, key) == None)
  {
    if OfFlight(ev) && ev.key == key {
      hide RequestStep, BackgroundStep, AfterSet, IsOrder, ToResponse, ValidEnrichment;
      FlightStepKeys(c, s, ev, key);
    } else {
      OthersLeaveStage(c, s, ev, key);
      hide Step;
    }
  }

  /** A flight enriches only after it has read that the store has nothing. */
  lemma {:induction false} EnrichesAfterRead(c: Config, evs: seq<Event>, states: seq<World>, n: nat, key: string)
    returns (j: nat)
    requires IsRun(c, evs, states) && n <= |evs|
    requires key in states[n].flights && Enriching(states[n].flights[key])
    ensures c.enrich && j < n && ReadsNothing(evs, states, j, key) && Aloft(states, key, j, n)
  {
    hide Step, GetByBin;
    if n > 0 {
      EnrichingStep(c, states[n - 1], evs[n - 1], key);
      if Enriching(states[n - 1].flights[key]) {
        j := EnrichesAfterRead(c, evs, states, n - 1, key);
      } else {
        j := n - 1;
      }
    }
  }

  lemma MissingStep(c: Config, s: World, ev: Event, key: string)
    requires InStage(Step(c, s, ev), key, Missing) && !InStage(s, key, Missing)
    ensures (!c.enrich && ev == Read(key, true) && InStage(s, key, Reading) && GetByBin(s.db, key) == None)
         || (ev == AskBinlist(key, CircuitBreaker.NotFound) && InStage(s, key, AskingBinlist))
  {
    if OfFlight(ev) && ev.key == key {
      hide RequestStep, BackgroundStep, AfterSet, IsOrder, ToResponse, ValidEnrichment;
      FlightStepKeys(c, s, ev, key);
    } else {
      OthersLeaveStage(c, s, ev, key);
      hide Step;
    }
  }

  /** What a flight has seen when it is about to remember a miss. */
  ghost predicate SawNothing(c: Config, evs: seq<Event>, states: seq<World>, j: nat, n: nat, key: string) {
    && j < n && ReadsNothing(evs, states, j, key) && Aloft(states, key, j, n)
    && (c.enrich ==> exists m | j < m < n && m < |evs| ::
          evs[m] == AskBinlist(key, CircuitBreaker.NotFound) && InStage(states[m], key, AskingBinlist))
  }

  lemma {:induction false} MissingFrom(c: Config, evs: seq<Event>, states: seq<World>, n: nat, key: string)
    returns (j: nat)
    requires IsRun(c, evs, states) && n <= |evs| && InStage(states[n], key, Missing)
    ensures SawNothing(c, evs, states, j, n, key)
  {
    hide Step, GetByBin;
    if n > 0 {
      if InStage(states[n - 1], key, Missing) {
        j := MissingFrom(c, evs, states, n - 1, key);
      } else {
        MissingStep(c, states[n - 1], evs[n - 1], key);
        if evs[n - 1].Read? {
          j := n - 1;
        } else {
          j := EnrichesAfterRead(c, evs, states, n - 1, key);
        }
      }
    }
  }

  lemma MissesStep(c: Config, s: World, ev: Event, key: string)
    requires key in Step(c, s, ev).misses && !(key in s.misses && s.misses[key] == Step(c, s, ev).misses[key])
    ensures ev.SetMisses? && ev.key == key && InStage(s, key, Missing)
    ensures Step(c, s, ev).misses[key] == Entry(true, ev.setNow + MISS_TTL)
  {
    hide IsOrder, ToResponse, ValidBin, Find, ValidEnrichment, Deliver, GetByBin, ScanAlong;
  }

  lemma {:induction false} MissCachedFrom(c: Config, evs: seq<Event>, states: seq<World>, n: nat, key: string)
    returns (i: nat)
    requires IsRun(c, evs, states) && n <= |evs| && key in states[n].misses
    ensures i < n && evs[i].SetMisses? && evs[i].key == key && InStage(states[i], key, Missing)
    ensures states[n].misses[key].expiresAt == evs[i].setNow + MISS_TTL
  {
    hide Step;
    if n > 0 {
      if key in states[n - 1].misses && states[n - 1].misses[key] == states[n].misses[key] {
        i := MissCachedFrom(c, evs, states, n - 1, key);
      } else {
        MissesStep(c, states[n - 1], evs[n - 1], key);
        i := n - 1;
      }
    }
  }

  /**
   A not-found served from the cache at `now` was remembered no earlier than `now` - 5 min, by a flight
   for that key that had read nothing and, with enrichment on, had been told "not found" by binlist.
  */
  lemma MissWithinTtl(c: Config, evs: seq<Event>, states: seq<World>, n: nat, r: nat, now: int)
    requires IsRun(c, evs, states) && n < |evs| && evs[n] == CheckMisses(r, now) && At(states[n], r, CacheMissed)
    requires Find(states[n].misses, states[n].requests[r].key, now).Some?
    ensures At(states[n + 1], r, Done(Absent))
    ensures exists j: nat, i: nat ::
              && j < i < n && SawNothing(c, evs, states, j, i, states[n].requests[r].key)
              && evs[i].SetMisses? && evs[i].key == states[n].requests[r].key && evs[i].setNow >= now - 300
  {
    hide GetByBin, FlightStep;
    var key := states[n].requests[r].key;
    var i := MissCachedFrom(c, evs, states, n, key);
    var j := MissingFrom(c, evs, states, i, key);
  }

  // ----- providers are asked only about unknown BINs -----

  ghost predicate AsksProvider(s: World, ev: Event, key: string) {
    || (ev.AskHandy? && ev.key == key && InStage(s, key, AskingHandy))
    || (ev.AskBinlist? && ev.key == key && InStage(s, key, AskingBinlist))
  }

  lemma FoundStays(c: Config, evs: seq<Event>, states: seq<World>, i: nat, j: nat, key: string)
    requires IsRun(c, evs, states) && OnlyWriter(evs, states) && i <= j <= |evs|
    requires GetByBin(states[i].db, key).Some?
    ensures GetByBin(states[j].db, key).Some?
  {
    hide Step;
    RowsStay(c, evs, states, i, j, if key in states[i].db then key else key[..6]);
  }

  /**
   With no other writer, a provider is asked about a BIN only while it has no row, and only by a flight
   whose read preceded every row that could answer it: once a six-digit row exists, no later reader of
   one of its eight-digit extensions goes to a provider.
  */
  lemma AskedOnlyIfUnknown(c: Config, evs: seq<Event>, states: seq<World>, n: nat, key: string)
    requires IsRun(c, evs, states) && OnlyWriter(evs, states) && n < |evs| && AsksProvider(states[n], evs[n], key)
    ensures key !in states[n].db
    ensures exists j: nat :: j < n && ReadsNothing(evs, states, j, key) && Aloft(states, key, j, n)
              && forall i: nat | i <= j :: GetByBin(states[i].db, key) == None
  {
    hide Step, GetByBin, Agrees, Truthful, Untold;
    RunAgreed(c, evs, states, n);
    StageOk(states[n], key);
    var j := EnrichesAfterRead(c, evs, states, n, key);
    forall i: nat | i <= j ensures GetByBin(states[i].db, key) == None {
      if GetByBin(states[i].db, key).Some? { FoundStays(c, evs, states, i, j, key); }
    }
  }

  /** The flight for `key` has just been granted a unit of the monthly quota, and has not used it yet. */
  ghost predicate ReservedAt(evs: seq<Event>, states: seq<World>, j: nat, n: nat, key: string) {
    && j < n < |states| && j < |evs| && evs[j] == Reserve(key, true) && InStage(states[j], key, Reserving)
    && forall m | j < m <= n :: InStage(states[m], key, AskingHandy)
  }

  lemma AskingHandyStep(c: Config, s: World, ev: Event, key: string)
    requires InStage(Step(c, s, ev), key, AskingHandy)
    ensures InStage(s, key, AskingHandy) || (ev == Reserve(key, true) && InStage(s, key, Reserving))
  {
    if OfFlight(ev) && ev.key == key {
      hide RequestStep, BackgroundStep, AfterSet, IsOrder, ToResponse, ValidEnrichment, GetByBin;
      FlightStepKeys(c, s, ev, key);
    } else {
      OthersLeaveStage(c, s, ev, key);
      hide Step;
    }
  }

  /** Each request to Handy follows a granted reservation of its own flight, which no other request used. */
  lemma {:induction false} HandyAfterReservation(c: Config, evs: seq<Event>, states: seq<World>, n: nat, key: string)
    requires IsRun(c, evs, states) && n <= |evs| && InStage(states[n], key, AskingHandy)
    ensures exists j: nat :: ReservedAt(evs, states, j, n, key)
  {
    hide Step;
    if n > 0 {
      AskingHandyStep(c, states[n - 1], evs[n - 1], key);
      if InStage(states[n - 1], key, AskingHandy) {
        HandyAfterReservation(c, evs, states, n - 1, key);
        var j: nat :| ReservedAt(evs, states, j, n - 1, key);
        assert ReservedAt(evs, states, j, n, key);
      } else {
        assert ReservedAt(evs, states, n - 1, n, key);
      }
    }
  }

  // ----- how a remembered miss goes stale -----

  /** The event stores a row that answers `key`. */
  ghost predicate Answers(s: World, ev: Event, key: string) {
    Persists(s, ev, key) || (|key| == 8 && Persists(s, ev, key[..6]))
  }

  lemma AppearsStep(c: Config, s: World, ev: Event, key: string)
    requires PersistsOwn(s) && !ev.OtherWriter?
    ensures GetByBin(s.db, key) == None ==> (GetByBin(Step(c, s, ev).db, key).Some? <==> Answers(s, ev, key))
  {
    OnlyUpsertsWrite(c, s, ev);
    hide Step;
  }

  /**
   With no other writer, what a flight read as missing is found later exactly if in the meantime a flight
   for the BIN itself, or for its six-digit prefix, has stored a row: that is when a remembered miss is stale.
  */
  lemma {:induction false} StaleMissIff(c: Config, evs: seq<Event>, states: seq<World>, j: nat, n: nat, key: string)
    requires IsRun(c, evs, states) && OnlyWriter(evs, states) && j <= n <= |evs| && ReadsNothing(evs, states, j, key)
    ensures GetByBin(states[n].db, key).Some? <==> exists m | j <= m < n :: Answers(states[m], evs[m], key)
  {
    hide Step, GetByBin, Answers;
    if j < n {
      StaleMissIff(c, evs, states, j, n - 1, key);
      RunPersistsOwn(c, evs, states, n - 1);
      AppearsStep(c, states[n - 1], evs[n - 1], key);
      if GetByBin(states[n - 1].db, key).Some? {
        FoundStays(c, evs, states, n - 1, n, key);
      }
    }
  }

  /** Event `i` remembers the miss of a flight for `key` that had read nothing with event `j`. */
  ghost predicate Remembers(c: Config, evs: seq<Event>, states: seq<World>, j: nat, i: nat, key: string) {
    && j < i < |evs| && SawNothing(c, evs, states, j, i, key)
    && evs[i].SetMisses? && evs[i].key == key && InStage(states[i], key, Missing)
  }

  /**
   Each entry of the negative cache, live or expired, disagrees with the store exactly if a row that answers
   its key was stored after the read of the flight that remembered the miss.
  */
  lemma StaleEntryIff(c: Config, evs: seq<Event>, states: seq<World>, n: nat, key: string) returns (j: nat, i: nat)
    requires IsRun(c, evs, states) && OnlyWriter(evs, states) && n <= |evs| && key in states[n].misses
    ensures i < n && Remembers(c, evs, states, j, i, key) && states[n].misses[key].expiresAt == evs[i].setNow + MISS_TTL
    ensures GetByBin(states[n].db, key).Some? <==> exists m | j <= m < n :: Answers(states[m], evs[m], key)
  {
    hide Step, GetByBin, Answers;
    i := MissCachedFrom(c, evs, states, n, key);
    j := MissingFrom(c, evs, states, i, key);
    StaleMissIff(c, evs, states, j, n, key);
  }

  // ----- flights end, and end well -----

  lemma FinishedStep(c: Config, s: World, ev: Event, key: string, a: Answer)
    requires InStage(s, key, Finished(a)) && key in Step(c, s, ev).flights
    ensures InStage(Step(c, s, ev), key, Finished(a))
  {
    hide AfterSet, IsOrder, ToResponse, ValidBin, Find, ValidEnrichment, Deliver, GetByBin, LivePart;
  }

  lemma {:induction false} FinishedStays(c: Config, evs: seq<Event>, states: seq<World>, i: nat, n: nat, key: string,
                                         a: Answer)
    requires IsRun(c, evs, states) && n <= |evs| && Aloft(states, key, i, n) && InStage(states[i], key, Finished(a))
    ensures InStage(states[n], key, Finished(a))
  {
    hide Step;
    if i < n {
      FinishedStays(c, evs, states, i, n - 1, key, a);
      FinishedStep(c, states[n - 1], evs[n - 1], key, a);
    }
  }

  lemma SettingFinishes(c: Config, s: World, ev: Event)
    requires ev.SetCache? || ev.SetMisses?
    ensures (Step(c, s, ev).cache == s.cache && Step(c, s, ev).misses == s.misses)
         || (exists v :: InStage(Step(c, s, ev), ev.key, Finished(Hit(v))))
         || InStage(Step(c, s, ev), ev.key, Finished(Absent))
  {
    hide AfterSet, IsOrder, ToResponse;
  }

  /** A flight that ends in an error has written neither cache. */
  lemma ErrorsWriteNothing(c: Config, evs: seq<Event>, states: seq<World>, i: nat, n: nat, key: string, f: Failure)
    requires IsRun(c, evs, states) && i < n <= |evs| && Aloft(states, key, i, n)
    requires InStage(states[n], key, Finished(Failed(f)))
    requires (evs[i].SetCache? || evs[i].SetMisses?) && evs[i].key == key
    ensures states[i + 1].cache == states[i].cache && states[i + 1].misses == states[i].misses
  {
    hide Step;
    SettingFinishes(c, states[i], evs[i]);
    if v :| InStage(states[i + 1], key, Finished(Hit(v))) {
      FinishedStays(c, evs, states, i + 1, n, key, Hit(v));
    } else if InStage(states[i + 1], key, Finished(Absent)) {
      FinishedStays(c, evs, states, i + 1, n, key, Absent);
    }
  }

  function Rank(stage: Stage): nat {
    match stage
    case Reading => 7
    case Reserving => 6
    case AskingHandy => 5
    case AskingBinlist => 4
    case Persisting(_) => 3
    case Holding(_) => 2
    case Missing => 1
    case Finished(_) => 0
  }

  lemma FlightAdvances(c: Config, s: World, ev: Event, key: string)
    requires key in s.flights && key in Step(c, s, ev).flights && Step(c, s, ev).flights[key] != s.flights[key]
    ensures Rank(Step(c, s, ev).flights[key]) < Rank(s.flights[key])
  {
    if OfFlight(ev) && ev.key == key {
      hide Step;
      OwnStepAdvances(c, s, ev);
    } else {
      OthersLeaveStage(c, s, ev, key);
      hide Step;
    }
  }

  lemma OwnStepAdvances(c: Config, s: World, ev: Event)
    requires OfFlight(ev) && ev.key in s.flights
    ensures ev.key in Step(c, s, ev).flights
    ensures Step(c, s, ev).flights[ev.key] == s.flights[ev.key]
         || Rank(Step(c, s, ev).flights[ev.key]) < Rank(s.flights[ev.key])
  {
    hide RequestStep, BackgroundStep, AfterSet, IsOrder, ToResponse, ValidEnrichment, GetByBin, TableAfterUpsert;
  }

  /** Steps that a flight takes between two states. */
  function Moves(states: seq<World>, key: string, i: nat, n: nat): nat
    requires i <= n < |states|
  {
    if i == n then 0
    else
      Moves(states, key, i, n - 1)
      + if key in states[n - 1].flights && key in states[n].flights
           && states[n].flights[key] != states[n - 1].flights[key]
        then 1 else 0
  }

  /** A flight takes at most seven steps, whatever happens around it. */
  lemma {:induction false} FlightIsShort(c: Config, evs: seq<Event>, states: seq<World>, i: nat, n: nat, key: string)
    requires IsRun(c, evs, states) && n <= |evs| && Aloft(states, key, i, n)
    ensures Moves(states, key, i, n) + Rank(states[n].flights[key]) <= Rank(states[i].flights[key]) <= 7
  {
    hide Step;
    if i < n {
      FlightIsShort(c, evs, states, i, n - 1, key);
      if states[n].flights[key] != states[n - 1].flights[key] {
        FlightAdvances(c, states[n - 1], evs[n - 1], key);
      }
    }
  }

  /** Nobody waits for a flight that is not there. */
  ghost predicate NobodyLost(s: World) {
    forall r | r in s.requests && s.requests[r].phase.Waiting? :: s.requests[r].key in s.flights
  }

  lemma StepLosesNobody(c: Config, s: World, ev: Event)
    requires NobodyLost(s)
    ensures NobodyLost(Step(c, s, ev))
  {
    hide AfterSet, IsOrder, ToResponse, ValidBin, Find, ValidEnrichment, GetByBin, LivePart, AfterRead, AfterHandy,
         AfterBinlist;
  }

  lemma {:induction false} RunLosesNobody(c: Config, evs: seq<Event>, states: seq<World>, n: nat)
    requires IsRun(c, evs, states) && n <= |evs|
    ensures NobodyLost(states[n])
  {
    hide Step;
    if n > 0 {
      RunLosesNobody(c, evs, states, n - 1);
      StepLosesNobody(c, states[n - 1], evs[n - 1]);
    }
  }

  lemma WaitingStep(c: Config, s: World, ev: Event, r: nat)
    requires At(s, r, Waiting) && s.requests[r].key in s.flights && s.requests[r].key in Step(c, s, ev).flights
    ensures At(Step(c, s, ev), r, Waiting) && Step(c, s, ev).requests[r] == s.requests[r]
  {
    hide AfterSet, IsOrder, ToResponse, ValidBin, Find, ValidEnrichment, GetByBin, LivePart, AfterRead, AfterHandy,
         AfterBinlist;
  }

  /** Everybody who waits for a flight, leader or not, gets that flight's answer. */
  lemma SharedAnswer(c: Config, evs: seq<Event>, states: seq<World>, i: nat, n: nat, r: nat, a: Answer)
    requires IsRun(c, evs, states) && i <= n < |evs| && At(states[i], r, Waiting)
    requires Aloft(states, states[i].requests[r].key, i, n)
    requires evs[n] == Release(states[i].requests[r].key) && InStage(states[n], states[i].requests[r].key, Finished(a))
    ensures At(states[n + 1], r, Done(a))
  {
    hide FlightStep;
    StillWaiting(c, evs, states, i, n, r);
  }

  lemma {:induction false} StillWaiting(c: Config, evs: seq<Event>, states: seq<World>, i: nat, n: nat, r: nat)
    requires IsRun(c, evs, states) && i <= n <= |evs| && At(states[i], r, Waiting)
    requires Aloft(states, states[i].requests[r].key, i, n)
    ensures r in states[n].requests && states[n].requests[r] == states[i].requests[r]
  {
    hide Step;
    if i < n {
      StillWaiting(c, evs, states, i, n - 1, r);
      WaitingStep(c, states[n - 1], evs[n - 1], r);
    }
  }
}
