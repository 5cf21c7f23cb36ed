/**
 What the lookup protocol does answer (internal/service/bin_service.go): where each event leads, stated by
 what happened and not by the stage functions, and so which answer a flight comes to and everybody who
 waits for it is given, whatever else is going on.
*/
module LookupAnswers {
  import opened Wrappers
  import opened Validator
  import opened Bins
  import opened Store
  import opened TtlCache
  import opened LookupService
  import opened LookupProtocol
  import opened LookupHistory
  import CircuitBreaker

  // ----- single events -----

  /** A read finds the stored row, or fails, or leads to the providers if there are any to ask. */
  lemma ReadLeads(c: Config, s: World, key: string, ok: bool)
    requires InStage(s, key, Reading)
    ensures var t := Step(c, s, Read(key, ok));
            InStage(t, key,
                    if !ok then Finished(Failed(DbFailed))
                    else if key in s.db then Holding(s.db[key])
                    else if |key| == 8 && key[..6] in s.db then Holding(s.db[key[..6]])
                    else if !c.enrich then Missing
                    else if c.handy then Reserving
                    else AskingBinlist)
            && t.db == s.db && t.cache == s.cache && t.misses == s.misses && t.requests == s.requests
  {
    hide ToResponse;
  }

  /** Handy is asked after a granted reservation, binlist without one. */
  lemma ReserveLeads(c: Config, s: World, key: string, reserved: bool)
    requires InStage(s, key, Reserving)
    ensures InStage(Step(c, s, Reserve(key, reserved)), key, if reserved then AskingHandy else AskingBinlist)
  {
    hide ToResponse;
  }

  /** A valid record from Handy is persisted; everything else leads to binlist. */
  lemma HandyLeads(c: Config, s: World, key: string, handy: CircuitBreaker.Outcome<HandyAnswer>)
    requires InStage(s, key, AskingHandy)
    ensures InStage(Step(c, s, AskHandy(key, handy)), key,
                    if handy.Found? && ValidEnrichment(FromHandy(key, handy.value))
                    then Persisting(FromHandy(key, handy.value)) else AskingBinlist)
  {
    hide ToResponse, ValidEnrichment, FromHandy;
  }

  /** A valid record from binlist is persisted; its other outcomes are the flight's answer. */
  lemma BinlistLeads(c: Config, s: World, key: string, binlist: CircuitBreaker.Outcome<BinlistAnswer>)
    requires InStage(s, key, AskingBinlist)
    ensures var t := Step(c, s, AskBinlist(key, binlist));
            match binlist
            case RateLimited => InStage(t, key, Finished(Failed(RateLimitedByProvider)))
            case Unavailable => InStage(t, key, Finished(Failed(EnrichmentUnavailable)))
            case NotFound => InStage(t, key, Missing)
            case Found(r) =>
              if ValidEnrichment(FromBinlist(key, r)) then InStage(t, key, Persisting(FromBinlist(key, r)))
              else InStage(t, key, Finished(Failed(EnrichmentUnavailable)))
  {
    hide ToResponse, ValidEnrichment, FromBinlist;
  }

  /** A confirmed upsert has stored the row and is answered by it; any other is an error, stored or not. */
  lemma UpsertLeads(c: Config, s: World, key: string, b: Bin, reply: UpsertReply)
    requires InStage(s, key, Persisting(b))
    ensures var t := Step(c, s, Upsert(key, reply));
            match reply
            case Stored => InStage(t, key, Holding(b)) && t.db == s.db[b.bin := b]
            case StoredButFailed => InStage(t, key, Finished(Failed(EnrichmentUnavailable))) && t.db == s.db[b.bin := b]
            case NotStored => InStage(t, key, Finished(Failed(EnrichmentUnavailable))) && t.db == s.db
  {
    hide ToResponse;
  }

  /** A record is cached for half an hour, and is the answer. */
  lemma CacheLeads(c: Config, s: World, key: string, b: Bin, order: seq<string>, evictNow: int, setNow: int)
    requires InStage(s, key, Holding(b)) && IsOrder(order, s.cache.Keys)
    ensures var t := Step(c, s, SetCache(key, order, evictNow, setNow));
            && InStage(t, key, Finished(Hit(ToResponse(b)))) && t.misses == s.misses
            && forall now | now <= setNow + 1800 :: Find(t.cache, key, now) == Some(ToResponse(b))
  {
    hide ToResponse, Victim;
  }

  /** A miss is remembered for five minutes, and is the answer. */
  lemma MissLeads(c: Config, s: World, key: string, order: seq<string>, evictNow: int, setNow: int)
    requires InStage(s, key, Missing) && IsOrder(order, s.misses.Keys)
    ensures var t := Step(c, s, SetMisses(key, order, evictNow, setNow));
            && InStage(t, key, Finished(Absent)) && t.cache == s.cache
            && forall now | now <= setNow + 300 :: Find(t.misses, key, now) == Some(true)
  {
    hide ToResponse, Victim;
  }

  /** A new request is asked about the positive cache first, then the negative one, and then joins a flight. */
  lemma RequestLeads(c: Config, s: World, r: nat, key: string, now: int)
    ensures r !in s.requests && ValidBin(key) ==>
              Step(c, s, Arrive(r, key)).requests == s.requests[r := Request(key, Fresh)]
    ensures r in s.requests && s.requests[r] == Request(key, Fresh) ==>
              At(Step(c, s, CheckCache(r, now)), r,
                 if Find(s.cache, key, now).Some? then Done(Hit(Find(s.cache, key, now).value)) else CacheMissed)
    ensures r in s.requests && s.requests[r] == Request(key, CacheMissed) ==>
              At(Step(c, s, CheckMisses(r, now)), r,
                 if Find(s.misses, key, now).Some? then Done(Absent) else NotCached)
  {
    hide Find, ValidBin;
  }

  /** A request that no cache answers leads a new flight, or joins the one there is. */
  lemma EnterLeads(c: Config, s: World, r: nat, key: string)
    requires r in s.requests && s.requests[r] == Request(key, NotCached)
    ensures var t := Step(c, s, Enter(r));
            && At(t, r, Waiting) && t.requests[r].key == key && key in t.flights
            && t.flights[key] == if key in s.flights then s.flights[key] else Reading
  {
  }

  // ----- whole flights -----

  lemma HoldingOn(c: Config, s: World, ev: Event, key: string, b: Bin)
    requires InStage(s, key, Holding(b)) && key in Step(c, s, ev).flights
    ensures InStage(Step(c, s, ev), key, Holding(b)) || InStage(Step(c, s, ev), key, Finished(Hit(ToResponse(b))))
  {
    hide AfterSet, IsOrder, ToResponse, ValidBin, Find, ValidEnrichment, Deliver, GetByBin, LivePart;
  }

  lemma MissingOn(c: Config, s: World, ev: Event, key: string)
    requires InStage(s, key, Missing) && key in Step(c, s, ev).flights
    ensures InStage(Step(c, s, ev), key, Missing) || InStage(Step(c, s, ev), key, Finished(Absent))
  {
    hide AfterSet, IsOrder, ToResponse, ValidBin, Find, ValidEnrichment, Deliver, GetByBin, LivePart;
  }

  /** A flight that holds a record comes to that answer and to no other. */
  lemma {:induction false} HoldingAnswers(c: Config, evs: seq<Event>, states: seq<World>, i: nat, n: nat, key: string,
                                          b: Bin)
    requires IsRun(c, evs, states) && n <= |evs| && Aloft(states, key, i, n) && InStage(states[i], key, Holding(b))
    ensures InStage(states[n], key, Holding(b)) || InStage(states[n], key, Finished(Hit(ToResponse(b))))
  {
    hide Step, ToResponse;
    if i < n {
      HoldingAnswers(c, evs, states, i, n - 1, key, b);
      if InStage(states[n - 1], key, Holding(b)) {
        HoldingOn(c, states[n - 1], evs[n - 1], key, b);
      } else {
        FinishedStep(c, states[n - 1], evs[n - 1], key, Hit(ToResponse(b)));
      }
    }
  }

  lemma {:induction false} MissingAnswers(c: Config, evs: seq<Event>, states: seq<World>, i: nat, n: nat, key: string)
    requires IsRun(c, evs, states) && n <= |evs| && Aloft(states, key, i, n) && InStage(states[i], key, Missing)
    ensures InStage(states[n], key, Missing) || InStage(states[n], key, Finished(Absent))
  {
    hide Step;
    if i < n {
      MissingAnswers(c, evs, states, i, n - 1, key);
      if InStage(states[n - 1], key, Missing) {
        MissingOn(c, states[n - 1], evs[n - 1], key);
      } else {
        FinishedStep(c, states[n - 1], evs[n - 1], key, Absent);
      }
    }
  }

  /**
   A stored row is served: a flight that reads it comes to that row's answer, with any other writers, and
   everybody who waits for the flight is given it.
  */
  lemma StoredRowIsServed(c: Config, evs: seq<Event>, states: seq<World>, j: nat, n: nat, key: string, b: Bin, r: nat)
    requires IsRun(c, evs, states) && j < n < |evs| && Aloft(states, key, j, n)
    requires evs[j] == Read(key, true) && InStage(states[j], key, Reading) && GetByBin(states[j].db, key) == Some(b)
    requires evs[n] == Release(key) && states[n].flights[key].Finished?
    ensures InStage(states[n], key, Finished(Hit(ToResponse(b))))
    ensures At(states[j], r, Waiting) && states[j].requests[r].key == key ==>
              At(states[n + 1], r, Done(Hit(ToResponse(b))))
  {
    ReadLeads(c, states[j], key, true);
    hide Step, ToResponse, GetByBin;
    HoldingAnswers(c, evs, states, j + 1, n, key, b);
    if At(states[j], r, Waiting) && states[j].requests[r].key == key {
      SharedAnswer(c, evs, states, j, n, r, Hit(ToResponse(b)));
    }
  }

  /** The answer that an event settles, for the flight for `key` in state `s`. */
  ghost predicate Settles(c: Config, s: World, ev: Event, key: string, a: Answer) {
    || (ev == Read(key, false) && InStage(s, key, Reading) && a == Failed(DbFailed))
    || (ev == Read(key, true) && InStage(s, key, Reading) && GetByBin(s.db, key).Some?
        && a == Hit(ToResponse(GetByBin(s.db, key).value)))
    || (ev == Read(key, true) && InStage(s, key, Reading) && GetByBin(s.db, key).None? && !c.enrich && a == Absent)
    || (ev == AskBinlist(key, CircuitBreaker.RateLimited) && InStage(s, key, AskingBinlist)
        && a == Failed(RateLimitedByProvider))
    || (ev == AskBinlist(key, CircuitBreaker.Unavailable) && InStage(s, key, AskingBinlist)
        && a == Failed(EnrichmentUnavailable))
    || (ev == AskBinlist(key, CircuitBreaker.NotFound) && InStage(s, key, AskingBinlist) && a == Absent)
    || (ev.AskBinlist? && ev.key == key && ev.binlist.Found? && InStage(s, key, AskingBinlist)
        && !ValidEnrichment(FromBinlist(key, ev.binlist.value)) && a == Failed(EnrichmentUnavailable))
    || (ev == Upsert(key, Stored) && key in s.flights && s.flights[key].Persisting?
        && a == Hit(ToResponse(s.flights[key].record)))
    || (ev.Upsert? && ev.key == key && !ev.reply.Stored? && key in s.flights && s.flights[key].Persisting?
        && a == Failed(EnrichmentUnavailable))
  }

  /** Each of these events decides what its flight will answer. */
  lemma SettledAnswer(c: Config, evs: seq<Event>, states: seq<World>, j: nat, n: nat, key: string, a: Answer)
    requires IsRun(c, evs, states) && j < n <= |evs| && Aloft(states, key, j, n)
    requires Settles(c, states[j], evs[j], key, a) && states[n].flights[key].Finished?
    ensures states[n].flights[key] == Finished(a)
  {
    SettledStage(c, states[j], evs[j], key, a);
    hide Step, ToResponse, Settles;
    match states[j + 1].flights[key]
    case Holding(b) => HoldingAnswers(c, evs, states, j + 1, n, key, b);
    case Missing => MissingAnswers(c, evs, states, j + 1, n, key);
    case Finished(x) => FinishedStays(c, evs, states, j + 1, n, key, x);
    case _ =>
  }

  lemma SettledStage(c: Config, s: World, ev: Event, key: string, a: Answer)
    requires Settles(c, s, ev, key, a) && key in Step(c, s, ev).flights
    ensures match Step(c, s, ev).flights[key]
            case Holding(b) => a == Hit(ToResponse(b))
            case Missing => a == Absent
            case Finished(x) => a == x
            case _ => false
  {
    hide ToResponse, Step, ValidEnrichment, FromBinlist;
    if ev.Read? {
      ReadLeads(c, s, key, ev.ok);
    } else if ev.AskBinlist? {
      BinlistLeads(c, s, key, ev.binlist);
    } else {
      UpsertLeads(c, s, key, s.flights[key].record, ev.reply);
    }
  }

  /** No flight is ever stuck: until it is finished, some event of its own moves it on. */
  lemma SomethingMoves(c: Config, s: World, key: string) returns (ev: Event)
    requires key in s.flights && !s.flights[key].Finished?
    ensures OfFlight(ev) && ev.key == key && key in Step(c, s, ev).flights
    ensures Rank(Step(c, s, ev).flights[key]) < Rank(s.flights[key])
  {
    hide Step, ToResponse, Find, ValidEnrichment;
    var stage := s.flights[key];
    match stage
    case Reading =>
      ev := Read(key, false);
      ReadLeads(c, s, key, false);
    case Reserving =>
      ev := Reserve(key, false);
      ReserveLeads(c, s, key, false);
    case AskingHandy =>
      ev := AskHandy(key, CircuitBreaker.NotFound);
      HandyLeads(c, s, key, CircuitBreaker.NotFound);
    case AskingBinlist =>
      ev := AskBinlist(key, CircuitBreaker.NotFound);
      BinlistLeads(c, s, key, CircuitBreaker.NotFound);
    case Persisting(b) =>
      ev := Upsert(key, Stored);
      UpsertLeads(c, s, key, b, Stored);
    case Holding(b) =>
      var order := SomeOrder(s.cache.Keys);
      ev := SetCache(key, order, 0, 0);
      CacheLeads(c, s, key, b, order, 0, 0);
    case Missing =>
      var order := SomeOrder(s.misses.Keys);
      ev := SetMisses(key, order, 0, 0);
      MissLeads(c, s, key, order, 0, 0);
  }

  /** Once a flight is finished it can be released, and the key is free again. */
  lemma ReleaseLeads(c: Config, s: World, key: string, a: Answer, r: nat)
    requires InStage(s, key, Finished(a))
    ensures key !in Step(c, s, Release(key)).flights
    ensures r in s.requests && s.requests[r] == Request(key, Waiting) ==> At(Step(c, s, Release(key)), r, Done(a))
    ensures r in s.requests && s.requests[r] != Request(key, Waiting) ==>
              r in Step(c, s, Release(key)).requests && Step(c, s, Release(key)).requests[r] == s.requests[r]
  {
  }
}
