/**
 What every state of the lookup protocol satisfies, also with other writers: only BINs are looked up,
 both caches stay within their capacity, and what the service stores fits the table
 (internal/handler/bin.go, internal/service/bin_service.go, pkg/cache/cache.go).
*/
module LookupInvariants {
  import opened Validator
  import opened Bins
  import opened Store
  import opened TtlCache
  import opened LookupService
  import opened LookupProtocol
  import CacheRuns
  import CircuitBreaker

  // ----- only BINs -----

  ghost predicate OnlyBins(s: World) {
    && (forall r | r in s.requests :: ValidBin(s.requests[r].key))
    && (forall k | k in s.flights :: ValidBin(k))
    && (forall k | k in s.cache :: ValidBin(k))
    && (forall k | k in s.misses :: ValidBin(k))
  }

  lemma AfterSetKeys<V>(items: Items<V>, max: int, ttl: int, key: string, v: V, order: seq<string>, evictNow: int,
                        setNow: int)
    requires IsOrder(order, items.Keys)
    ensures AfterSet(items, max, ttl, key, v, order, evictNow, setNow).Keys <= items.Keys + {key}
  {
  }

  lemma FlightOnlyBins(c: Config, s: World, ev: Event)
    requires OnlyBins(s)
    ensures OnlyBins(FlightStep(c, s, ev))
  {
    hide ValidBin, AfterSet, ToResponse, AfterRead, AfterHandy, AfterBinlist;
    match ev
    case SetCache(key, order, evictNow, setNow) =>
      if key in s.flights && s.flights[key].Holding? && IsOrder(order, s.cache.Keys) {
        AfterSetKeys(s.cache, MAX_ENTRIES, TTL, key, ToResponse(s.flights[key].record), order, evictNow, setNow);
      }
    case SetMisses(key, order, evictNow, setNow) =>
      if InStage(s, key, Missing) && IsOrder(order, s.misses.Keys) {
        AfterSetKeys(s.misses, MAX_MISSES, MISS_TTL, key, true, order, evictNow, setNow);
      }
    case _ =>
  }

  lemma RequestOnlyBins(s: World, ev: Event)
    requires OnlyBins(s)
    ensures OnlyBins(RequestStep(s, ev))
  {
    hide ValidBin, Find, Phase1, Phase2;
  }

  lemma StepOnlyBins(c: Config, s: World, ev: Event)
    requires OnlyBins(s)
    ensures OnlyBins(Step(c, s, ev))
  {
    FlightOnlyBins(c, s, ev);
    hide ValidBin, FlightStep, Find, Phase1, Phase2;
    if OfRequest(ev) {
      RequestOnlyBins(s, ev);
      hide RequestStep;
    } else {
      hide RequestStep;
    }
  }

  // ----- capacity -----

  ghost predicate Bounded(s: World) { |s.cache| <= MAX_ENTRIES && |s.misses| <= MAX_MISSES }

  lemma NoEmptyKey(s: World)
    requires OnlyBins(s)
    ensures "" !in s.cache && "" !in s.misses && "" !in s.flights
  {
    assert !ValidBin("");
  }

  lemma SetBounded<V>(items: Items<V>, max: int, ttl: int, key: string, v: V, order: seq<string>, evictNow: int,
                      setNow: int)
    requires IsOrder(order, items.Keys) && |items| <= max && max >= 1 && "" !in items && key != ""
    ensures |AfterSet(items, max, ttl, key, v, order, evictNow, setNow)| <= max
  {
    hide AfterSet;
    var op := CacheRuns.Set(key, v, evictNow, setNow);
    var after := AfterSet(items, max, ttl, key, v, order, evictNow, setNow);
    assert CacheRuns.SetAlong(max, ttl, items, op, after, order);
    CacheRuns.StepKeepsBound(max, ttl, items, op, after);
  }

  lemma FlightBounded(c: Config, s: World, ev: Event)
    requires OnlyBins(s) && Bounded(s)
    ensures Bounded(FlightStep(c, s, ev))
  {
    hide AfterSet, ToResponse, AfterRead, AfterHandy, AfterBinlist, OnlyBins;
    NoEmptyKey(s);
    match ev
    case SetCache(key, order, evictNow, setNow) =>
      if key in s.flights && s.flights[key].Holding? && IsOrder(order, s.cache.Keys) {
        SetBounded(s.cache, MAX_ENTRIES, TTL, key, ToResponse(s.flights[key].record), order, evictNow, setNow);
      }
    case SetMisses(key, order, evictNow, setNow) =>
      if InStage(s, key, Missing) && IsOrder(order, s.misses.Keys) {
        SetBounded(s.misses, MAX_MISSES, MISS_TTL, key, true, order, evictNow, setNow);
      }
    case _ =>
  }

  lemma RequestKeepsCaches(s: World, ev: Event)
    ensures RequestStep(s, ev).cache == s.cache && RequestStep(s, ev).misses == s.misses
  {
    hide ValidBin, Find, Phase1, Phase2, Deliver;
  }

  lemma StepBounded(c: Config, s: World, ev: Event)
    requires OnlyBins(s) && Bounded(s)
    ensures Bounded(Step(c, s, ev))
  {
    hide FlightStep, RequestStep, Find, LivePart, OnlyBins, ValidBin;
    if OfRequest(ev) { RequestKeepsCaches(s, ev); }
    FlightBounded(c, s, ev);
    match ev
    case CleanCache(now) => CacheRuns.LivePartSize(s.cache, now);
    case CleanMisses(now) => CacheRuns.LivePartSize(s.misses, now);
    case _ =>
  }

  /** The handler's gate keeps every key a BIN, hence not empty, and so neither cache ever outgrows its capacity. */
  lemma {:induction false} CachesBounded(c: Config, evs: seq<Event>, states: seq<World>, i: nat)
    requires IsRun(c, evs, states) && i <= |evs|
    ensures OnlyBins(states[i]) && Bounded(states[i])
    ensures |states[i].cache| <= 20_000 && |states[i].misses| <= 50_000
  {
    hide Step;
    if i > 0 {
      CachesBounded(c, evs, states, i - 1);
      StepOnlyBins(c, states[i - 1], evs[i - 1]);
      StepBounded(c, states[i - 1], evs[i - 1]);
    }
  }

  // ----- what is stored -----

  ghost predicate Storable(b: Bin) { RowGood(b) && b.source != LOCAL }

  ghost predicate PersistsGood(s: World) {
    forall k | k in s.flights && s.flights[k].Persisting? ::
      s.flights[k].record.bin == k && Storable(s.flights[k].record)
  }

  lemma HandyStorable(key: string, handy: CircuitBreaker.Outcome<HandyAnswer>)
    ensures AfterHandy(key, handy).Persisting? ==>
              AfterHandy(key, handy).record.bin == key && Storable(AfterHandy(key, handy).record)
  {
    hide ValidEnrichment, RowGood;
    if AfterHandy(key, handy).Persisting? { HandyRecordGood(key, handy.value); }
  }

  lemma BinlistStorable(key: string, binlist: CircuitBreaker.Outcome<BinlistAnswer>)
    ensures AfterBinlist(key, binlist).Persisting? ==>
              AfterBinlist(key, binlist).record.bin == key && Storable(AfterBinlist(key, binlist).record)
  {
    hide ValidEnrichment, RowGood;
    if AfterBinlist(key, binlist).Persisting? { BinlistRecordGood(key, binlist.value); }
  }

  lemma OwnStepPersists(c: Config, s: World, ev: Event)
    requires PersistsGood(s) && OfFlight(ev) && InStagePersisting(Step(c, s, ev), ev.key)
    ensures Step(c, s, ev).flights[ev.key].record.bin == ev.key && Storable(Step(c, s, ev).flights[ev.key].record)
  {
    hide RequestStep, BackgroundStep, AfterSet, IsOrder, ToResponse, AfterHandy, AfterBinlist, GetByBin, Storable;
    match ev
    case AskHandy(key, handy) => HandyStorable(key, handy);
    case AskBinlist(key, binlist) => BinlistStorable(key, binlist);
    case _ =>
  }

  predicate InStagePersisting(s: World, key: string) { key in s.flights && s.flights[key].Persisting? }

  lemma StepPersistsGood(c: Config, s: World, ev: Event)
    requires PersistsGood(s)
    ensures PersistsGood(Step(c, s, ev))
  {
    var t := Step(c, s, ev);
    forall k | k in t.flights && t.flights[k].Persisting?
      ensures t.flights[k].record.bin == k && Storable(t.flights[k].record)
    {
      if OfFlight(ev) && ev.key == k {
        OwnStepPersists(c, s, ev);
      } else {
        OthersLeaveStage(c, s, ev, k);
      }
      hide Step, Storable;
    }
  }

  /**
   Whatever providers answer, the service only stores rows that fit the table, under the BIN looked up, never
   `local`.
  */
  lemma {:induction false} StoresOnlyGoodRows(c: Config, evs: seq<Event>, states: seq<World>, i: nat)
    requires IsRun(c, evs, states) && i <= |evs|
    ensures PersistsGood(states[i])
  {
    hide Step;
    if i > 0 {
      StoresOnlyGoodRows(c, evs, states, i - 1);
      StepPersistsGood(c, states[i - 1], evs[i - 1]);
    }
  }

  /** `db` has one more row, the record of a flight. */
  ghost predicate WritesRecord(s: World, db: Table) {
    exists k :: k in s.flights && s.flights[k].Persisting? && db == Upserted(s.db, s.flights[k].record)
  }

  lemma UpsertGood(s: World, t: World)
    requires PersistsGood(s) && TableGood(s.db)
    requires t.db == s.db || WritesRecord(s, t.db)
    ensures TableGood(t.db)
  {
    hide RowGood;
  }

  lemma StepWrites(c: Config, s: World, ev: Event)
    requires !ev.OtherWriter?
    ensures Step(c, s, ev).db == s.db
         || WritesRecord(s, Step(c, s, ev).db)
  {
    OnlyUpsertsWrite(c, s, ev);
    hide Step, Upserted;
    if Upserts(s, ev) {
      var db := Step(c, s, ev).db;
      assert db == s.db || db == Upserted(s.db, s.flights[ev.key].record);
    }
  }

  /** So the table stays good as long as the other writers keep it good. */
  lemma {:induction false} TableStaysGood(c: Config, evs: seq<Event>, states: seq<World>, i: nat)
    requires IsRun(c, evs, states) && i <= |evs| && TableGood(states[0].db)
    requires forall j | 0 <= j < |evs| && evs[j].OtherWriter? :: TableGood(evs[j].db)
    ensures TableGood(states[i].db)
  {
    hide RequestStep, FlightStep, TableGood;
    if i > 0 {
      TableStaysGood(c, evs, states, i - 1);
      if !evs[i - 1].OtherWriter? {
        StoresOnlyGoodRows(c, evs, states, i - 1);
        StepWrites(c, states[i - 1], evs[i - 1]);
        UpsertGood(states[i - 1], states[i]);
      }
    }
  }
}
