/**
 The lookup service (internal/service/bin_service.go), one call at a time: the two caches,
 the table, the quota and the provider chain. What the network and the database reply is
 passed in as `Conditions`; all interleavings of concurrent calls are in LookupProtocol.
*/
module LookupService {
  import opened Wrappers
  import opened Text
  import opened Bins
  import opened Store
  import opened TtlCache
  import opened CircuitBreaker
  import Quota

  datatype Failure = DbFailed | RateLimitedByProvider | EnrichmentUnavailable

  datatype Answer = Hit(response: Response) | Absent | Failed(failure: Failure)

  /** Seconds and entries of the two caches. */
  const TTL := 1800
  const MAX_ENTRIES := 20_000
  const MISS_TTL := 300
  const MAX_MISSES := 50_000
  const DEFAULT_LIMIT := 3_000

  datatype Config = Config(enrich: bool, handy: bool)

  // ----- the steps of one flight -----

  /** What a flight does next, and what it has learned. */
  datatype Stage =
    | Reading
    | Reserving
    | AskingHandy
    | AskingBinlist
    | Persisting(record: Bin)
    | Holding(record: Bin)
    | Missing
    | Finished(answer: Answer)

  function AfterRead(c: Config, db: Table, key: string, ok: bool): Stage {
    if !ok then Finished(Failed(DbFailed))
    else
      match GetByBin(db, key)
      case Some(b) => Holding(b)
      case None => if !c.enrich then Missing else if c.handy then Reserving else AskingBinlist
  }

  /** Handy is only asked after a reservation that was granted and confirmed. */
  function AfterReserve(reserved: bool): Stage { if reserved then AskingHandy else AskingBinlist }

  ghost function AfterHandy(key: string, outcome: Outcome<HandyAnswer>): Stage {
    if outcome.Found? && ValidEnrichment(FromHandy(key, outcome.value)) then Persisting(FromHandy(key, outcome.value))
    else AskingBinlist
  }

  ghost function AfterBinlist(key: string, outcome: Outcome<BinlistAnswer>): Stage {
    match outcome
    case RateLimited => Finished(Failed(RateLimitedByProvider))
    case Unavailable => Finished(Failed(EnrichmentUnavailable))
    case NotFound => Missing
    case Found(r) =>
      if ValidEnrichment(FromBinlist(key, r)) then Persisting(FromBinlist(key, r))
      else Finished(Failed(EnrichmentUnavailable))
  }

  /** An upsert can be stored although the caller sees an error. */
  datatype UpsertReply = Stored | StoredButFailed | NotStored

  function AfterUpsert(b: Bin, reply: UpsertReply): Stage {
    if reply.Stored? then Holding(b) else Finished(Failed(EnrichmentUnavailable))
  }

  function TableAfterUpsert(db: Table, b: Bin, reply: UpsertReply): Table {
    if reply.NotStored? then db else Upserted(db, b)
  }

  // ----- coherence of the positive cache -----

  /** The store's answer for `key` is found and reads `r`. */
  ghost predicate Agrees(db: Table, key: string, r: Response) {
    GetByBin(db, key).Some? && ToResponse(GetByBin(db, key).value) == r
  }

  /** Every cached response, live or expired, is the store's current answer. */
  ghost predicate Coherent(db: Table, items: Items<Response>) {
    forall k | k in items :: Agrees(db, k, items[k].value)
  }

  /** A new row does not change the answer for any other key that had one. */
  lemma NewRowKeepsAnswers(db: Table, b: Bin, key: string, r: Response)
    requires b.bin !in db && key != b.bin && Agrees(db, key, r)
    ensures Agrees(Upserted(db, b), key, r)
  {
    UpsertChanges(db, b, key);
  }

  lemma SetKeepsCoherent(db: Table, items: Items<Response>, max: int, ttl: int, key: string, r: Response,
                         order: seq<string>, evictNow: int, setNow: int)
    requires Coherent(db, items) && Agrees(db, key, r) && IsOrder(order, items.Keys)
    ensures Coherent(db, AfterSet(items, max, ttl, key, r, order, evictNow, setNow))
  {
  }

  // ----- the service -----

  datatype QuotaReply = Answered | Lost(stored: bool)

  /** Everything outside the service that one call meets. */
  datatype Conditions = Conditions(
    getNow: int, missNow: int, evictNow: int, setNow: int,
    readOk: bool, month: int, quotaReply: QuotaReply,
    handy: Outcome<HandyAnswer>, binlist: Outcome<BinlistAnswer>, upsert: UpsertReply)

  datatype Cause =
    | QuotaError
    | QuotaExhausted
    | HandyError
    | HandyInvalid
    | BinlistError
    | BinlistInvalid

  datatype EnrichmentError = EnrichmentError(limited: bool, causes: seq<Cause>)

  /** Where the chain of providers leads. */
  function StageOf(r: Result<Option<Bin>, EnrichmentError>): Stage {
    match r
    case Ok(Some(b)) => Persisting(b)
    case Ok(None) => Missing
    case Err(e) => Finished(Failed(if e.limited then RateLimitedByProvider else EnrichmentUnavailable))
  }

  ghost predicate HandyDelivers(bin: string, reserved: bool, x: Conditions) {
    reserved && AfterHandy(bin, x.handy).Persisting?
  }

  /** The chain as a whole: a valid Handy record, else whatever binlist says. */
  ghost function Chain(bin: string, reserved: bool, x: Conditions): Stage {
    if HandyDelivers(bin, reserved, x) then AfterHandy(bin, x.handy) else AfterBinlist(bin, x.binlist)
  }

  /** The cache after a `Set`, whatever order its map is iterated in. */
  ghost predicate WasSet<V>(before: Items<V>, max: int, ttl: int, key: string, v: V, x: Conditions, after: Items<V>) {
    exists order | IsOrder(order, before.Keys) ::
      after == AfterSet(before, max, ttl, key, v, order, x.evictNow, x.setNow)
  }

  /** Where a flight ends up if its upsert is left out: after its read, or at the end of the chain. */
  ghost function FlightEnd(c: Config, reserved: bool, bin: string, x: Conditions, db: Table): Stage {
    var read := AfterRead(c, db, bin, x.readOk);
    if read.Reserving? || read.AskingBinlist? then Chain(bin, reserved, x) else read
  }

  /** The answer of a flight, when the database replies to its upsert (if any) as in `x`. */
  ghost predicate EndsWith(end: Stage, x: Conditions, answer: Answer) {
    match end
    case Holding(b) => answer == Hit(ToResponse(b))
    case Persisting(b) => answer == if x.upsert.Stored? then Hit(ToResponse(b)) else Failed(EnrichmentUnavailable)
    case Missing => answer == Absent
    case Finished(a) => answer == a
    case _ => false
  }

  function TableAtEnd(end: Stage, x: Conditions, db: Table): Table {
    if end.Persisting? then TableAfterUpsert(db, end.record, x.upsert) else db
  }

  /** Only a found answer writes the positive cache, only a not-found the negative one. */
  ghost predicate CachesAtEnd(bin: string, x: Conditions, answer: Answer, cache: Items<Response>, misses: Items<bool>,
                              cache': Items<Response>, misses': Items<bool>) {
    && (if answer.Hit? then WasSet(cache, MAX_ENTRIES, TTL, bin, answer.response, x, cache') else cache' == cache)
    && (if answer.Absent? then WasSet(misses, MAX_MISSES, MISS_TTL, bin, true, x, misses') else misses' == misses)
  }

  /** All that one call does to the table and the caches, and its answer. */
  ghost predicate LookupEffect(c: Config, reserved: bool, bin: string, x: Conditions,
                               db: Table, cache: Items<Response>, misses: Items<bool>,
                               db': Table, cache': Items<Response>, misses': Items<bool>, answer: Answer) {
    if Find(cache, bin, x.getNow).Some? then
      answer == Hit(Find(cache, bin, x.getNow).value) && db' == db && cache' == cache && misses' == misses
    else if Find(misses, bin, x.missNow).Some? then
      answer == Absent && db' == db && cache' == cache && misses' == misses
    else
      && EndsWith(FlightEnd(c, reserved, bin, x, db), x, answer)
      && db' == TableAtEnd(FlightEnd(c, reserved, bin, x, db), x, db)
      && CachesAtEnd(bin, x, answer, cache, misses, cache', misses')
  }

  /** What becomes of a record that a provider delivered. */
  predicate Saves(before: Table, b: Bin, reply: UpsertReply, after: Table, answer: Answer) {
    match reply
    case Stored => answer == Hit(ToResponse(b)) && after == before[b.bin := b]
    case StoredButFailed => answer == Failed(EnrichmentUnavailable) && after == before[b.bin := b]
    case NotStored => answer == Failed(EnrichmentUnavailable) && after == before
  }

  /** The decision table of a lookup that neither cache answers: answer, table afterwards and providers asked. */
  ghost predicate Decides(c: Config, reserved: bool, bin: string, x: Conditions, db: Table,
                          db': Table, answer: Answer, asked: seq<Provider>) {
    if !x.readOk then answer == Failed(DbFailed) && db' == db && asked == []
    else if bin in db then answer == Hit(ToResponse(db[bin])) && db' == db && asked == []
    else if |bin| == 8 && bin[..6] in db then answer == Hit(ToResponse(db[bin[..6]])) && db' == db && asked == []
    else if !c.enrich then answer == Absent && db' == db && asked == []
    else if reserved && x.handy.Found? && ValidEnrichment(FromHandy(bin, x.handy.value)) then
      Saves(db, FromHandy(bin, x.handy.value), x.upsert, db', answer) && asked == [Provider.Handy]
    else
      && asked == (if reserved then [Provider.Handy] else []) + [Provider.Binlist]
      && match x.binlist
         case RateLimited => answer == Failed(RateLimitedByProvider) && db' == db
         case Unavailable => answer == Failed(EnrichmentUnavailable) && db' == db
         case NotFound => answer == Absent && db' == db
         case Found(b) =>
           if ValidEnrichment(FromBinlist(bin, b)) then Saves(db, FromBinlist(bin, b), x.upsert, db', answer)
           else answer == Failed(EnrichmentUnavailable) && db' == db
  }

  function PeriodOf(x: Conditions): Quota.Period { Quota.Period("handy_api", x.month) }

  class Service {
    const config: Config
    const limit: int
    const cache: Cache<Response>
    const misses: Cache<bool>
    const quota: Quota.Table
    var bins: Table

    ghost predicate Valid() {
      && cache as object != misses as object
      && cache.ttl == TTL && cache.maxEntries == MAX_ENTRIES
      && misses.ttl == MISS_TTL && misses.maxEntries == MAX_MISSES
      && limit >= 1
    }

    constructor (enrich: bool, handyKey: string, handyLimit: int, quota: Quota.Table, bins: Table)
      ensures Valid() && fresh(cache) && fresh(misses) && this.quota == quota && this.bins == bins
      ensures config == Config(enrich, Trim(handyKey) != "")
      ensures limit == if handyLimit <= 0 then 3_000 else handyLimit
      ensures cache.items == map[] && cache.ttl == 1800 && cache.maxEntries == 20_000
      ensures misses.items == map[] && misses.ttl == 300 && misses.maxEntries == 50_000
    {
      config := Config(enrich, Trim(handyKey) != "");
      limit := if handyLimit <= 0 then DEFAULT_LIMIT else handyLimit;
      cache := new Cache(TTL, MAX_ENTRIES);
      misses := new Cache(MISS_TTL, MAX_MISSES);
      this.quota := quota;
      this.bins := bins;
    }

    /** Did this call's reservation succeed, as far as the service knows? */
    ghost predicate Reserves(x: Conditions)
      reads quota
    {
      config.handy && x.quotaReply.Answered? && Quota.Used(quota.usage, PeriodOf(x)) < limit
    }

    /**
     The provider chain. It only succeeds with a record fit for storing, it asks binlist exactly when
     Handy did not deliver one, only binlist's limit is reported as a rate limit, only binlist's "not
     found" is a "not found", and an error always has a cause (joining no errors would be a nil error).
    */
    method LookupEnrichment(bin: string, x: Conditions)
      returns (r: Result<Option<Bin>, EnrichmentError>, asked: seq<Provider>)
      modifies quota
      ensures StageOf(r) == Chain(bin, old(Reserves(x)), x)
      ensures Provider.Handy in asked
         <==> config.handy && x.quotaReply.Answered?
              && old(Quota.Used(quota.usage, Quota.Period("handy_api", x.month))) < limit
      ensures Provider.Handy in asked && x.handy.Found? && ValidEnrichment(FromHandy(bin, x.handy.value)) ==>
                r == Ok(Some(FromHandy(bin, x.handy.value))) && asked == [Provider.Handy]
      ensures !(Provider.Handy in asked && x.handy.Found? && ValidEnrichment(FromHandy(bin, x.handy.value))) ==>
                && asked == (if Provider.Handy in asked then [Provider.Handy] else []) + [Provider.Binlist]
                && match x.binlist
                   case RateLimited => r.Err? && r.error.limited
                   case Unavailable => r.Err? && !r.error.limited
                   case NotFound => r == Ok(None)
                   case Found(b) =>
                     if ValidEnrichment(FromBinlist(bin, b)) then r == Ok(Some(FromBinlist(bin, b)))
                     else r.Err? && !r.error.limited
      ensures r.Ok? && r.value.Some? ==>
                ValidEnrichment(r.value.value) && r.value.value.bin == bin
                && RowGood(r.value.value) && r.value.value.source != LOCAL
      ensures var onHandy := if !config.handy then []
                             else if x.quotaReply.Lost? then [QuotaError]
                             else if Provider.Handy !in asked then [QuotaExhausted]
                             else if x.handy.Found? then [HandyInvalid]
                             else if x.handy.NotFound? then [] else [HandyError];
              r.Err? ==> r.error.causes == onHandy + [if x.binlist.Found? then BinlistInvalid else BinlistError]
      ensures quota.usage == if config.handy && x.quotaReply != Lost(false)
                             then Quota.Consume(old(quota.usage), PeriodOf(x), limit).1 else old(quota.usage)
    {
      hide Trim, Fits, ValidEnrichment, Quota.Consume, LocalIsPlain;
      var causes: seq<Cause> := [];
      asked := [];
      if config.handy {
        var reserved := false;
        if x.quotaReply != Lost(false) {
          reserved := quota.TryConsume(PeriodOf(x), limit);
        }
        if x.quotaReply.Lost? {
          causes := causes + [QuotaError];
        } else if reserved {
          asked := asked + [Provider.Handy];
          if x.handy.RateLimited? || x.handy.Unavailable? {
            causes := causes + [HandyError];
          } else if x.handy.Found? {
            var record := FromHandy(bin, x.handy.value);
            var valid := IsValidEnrichment(record);
            if valid {
              HandyRecordGood(bin, x.handy.value);
              return Ok(Some(record)), asked;
            }
            causes := causes + [HandyInvalid];
          }
        } else {
          causes := causes + [QuotaExhausted];
        }
      }
      asked := asked + [Provider.Binlist];
      match x.binlist {
        case RateLimited => return Err(EnrichmentError(true, causes + [BinlistError])), asked;
        case Unavailable => return Err(EnrichmentError(false, causes + [BinlistError])), asked;
        case NotFound => return Ok(None), asked;
        case Found(response) =>
          var record := FromBinlist(bin, response);
          var valid := IsValidEnrichment(record);
          if !valid {
            return Err(EnrichmentError(false, causes + [BinlistInvalid])), asked;
          }
          BinlistRecordGood(bin, response);
          return Ok(Some(record)), asked;
      }
    }

    method Upsert(b: Bin, reply: UpsertReply) returns (ok: bool)
      modifies this`bins
      ensures bins == TableAfterUpsert(old(bins), b, reply)
      ensures ok <==> reply.Stored?
    {
      if reply != NotStored {
        bins := bins[b.bin := b];
      }
      return reply.Stored?;
    }

    /** The function that is run once per key, however many requests wait for it. */
    method Fly(bin: string, x: Conditions) returns (answer: Answer, asked: seq<Provider>)
      requires Valid()
      modifies this, cache, misses, quota
      ensures Valid()
      ensures EndsWith(FlightEnd(config, old(Reserves(x)), bin, x, old(bins)), x, answer)
      ensures bins == TableAtEnd(FlightEnd(config, old(Reserves(x)), bin, x, old(bins)), x, old(bins))
      ensures CachesAtEnd(bin, x, answer, old(cache.items), old(misses.items), cache.items, misses.items)
      ensures Decides(config, old(Reserves(x)), bin, x, old(bins), bins, answer, asked)
      ensures x.readOk && GetByBin(old(bins), bin).Some? ==> answer == Hit(ToResponse(GetByBin(old(bins), bin).value))
      ensures answer.Hit? ==> Agrees(bins, bin, answer.response)
      ensures answer.Absent? ==>
                x.readOk && GetByBin(bins, bin).None? && (config.enrich ==> x.binlist.NotFound?)
      ensures bins == old(bins) || (GetByBin(old(bins), bin).None? && NewRow(old(bins), bin, bins))
      ensures asked != [] || quota.usage != old(quota.usage) ==>
                x.readOk && config.enrich && GetByBin(old(bins), bin).None?
    {
      hide ValidEnrichment, RowGood, AfterSet, IsOrder, ToResponse, FromHandy, FromBinlist, Chain, StageOf, EndsWith,
           FlightEnd, TableAtEnd, Agrees, NewRow, WasSet;
      asked := [];
      if !x.readOk {
        answer := Failed(DbFailed);
      } else {
        var found := GetByBin(bins, bin);
        if found.Some? {
          answer := Hit(ToResponse(found.value));
          cache.Set(bin, answer.response, x.evictNow, x.setNow);
          SetWas(old(cache.items), MAX_ENTRIES, TTL, bin, answer.response, x, cache.items);
        } else if !config.enrich {
          misses.Set(bin, true, x.evictNow, x.setNow);
          SetWas(old(misses.items), MAX_MISSES, MISS_TTL, bin, true, x, misses.items);
          answer := Absent;
        } else {
          var r;
          r, asked := LookupEnrichment(bin, x);
          match r {
            case Err(e) =>
              answer := Failed(if e.limited then RateLimitedByProvider else EnrichmentUnavailable);
            case Ok(None) =>
              misses.Set(bin, true, x.evictNow, x.setNow);
              SetWas(old(misses.items), MAX_MISSES, MISS_TTL, bin, true, x, misses.items);
              answer := Absent;
            case Ok(Some(record)) =>
              var ok := Upsert(record, x.upsert);
              if ok {
                answer := Hit(ToResponse(record));
                cache.Set(bin, answer.response, x.evictNow, x.setNow);
                SetWas(old(cache.items), MAX_ENTRIES, TTL, bin, answer.response, x, cache.items);
              } else {
                answer := Failed(EnrichmentUnavailable);
              }
          }
        }
      }
      assert Decides(config, old(Reserves(x)), bin, x, old(bins), bins, answer, asked);
      hide Decides, CachesAtEnd;
      DecidesEnd(config, old(Reserves(x)), bin, x, old(bins), bins, answer, asked);
      DecidesMeans(config, old(Reserves(x)), bin, x, old(bins), bins, answer, asked);
    }

    /**
     One lookup with nobody else at work: a live cached answer is served as it is and changes nothing;
     otherwise the flight decides. Whatever happens, a coherent cache stays coherent.
    */
    method Lookup(bin: string, x: Conditions) returns (answer: Answer, asked: seq<Provider>)
      requires Valid()
      modifies this, cache, misses, quota
      ensures Valid()
      ensures LookupEffect(config, old(Reserves(x)), bin, x, old(bins), old(cache.items), old(misses.items),
                           bins, cache.items, misses.items, answer)
      ensures Find(old(cache.items), bin, x.getNow).Some? || Find(old(misses.items), bin, x.missNow).Some? ==>
                asked == [] && quota.usage == old(quota.usage)
      ensures Find(old(cache.items), bin, x.getNow).Some? ==>
                answer == Hit(Find(old(cache.items), bin, x.getNow).value) && bins == old(bins)
                && cache.items == old(cache.items) && misses.items == old(misses.items)
      ensures Find(old(cache.items), bin, x.getNow).None? && Find(old(misses.items), bin, x.missNow).Some? ==>
                answer == Absent && bins == old(bins)
                && cache.items == old(cache.items) && misses.items == old(misses.items)
      ensures Find(old(cache.items), bin, x.getNow).None? && Find(old(misses.items), bin, x.missNow).None? ==>
                && Decides(config, old(Reserves(x)), bin, x, old(bins), bins, answer, asked)
                && (x.readOk && GetByBin(old(bins), bin).Some? ==>
                      answer == Hit(ToResponse(GetByBin(old(bins), bin).value)))
                && (answer.Hit? ==>
                      forall t | t <= x.setNow + 1800 :: Find(cache.items, bin, t) == Some(answer.response))
                && (answer.Absent? ==> forall t | t <= x.setNow + 300 :: Find(misses.items, bin, t) == Some(true))
      ensures answer.Failed? ==> cache.items == old(cache.items) && misses.items == old(misses.items)
      ensures bins == old(bins) || (GetByBin(old(bins), bin).None? && NewRow(old(bins), bin, bins))
      ensures old(Coherent(bins, cache.items)) ==>
                Coherent(bins, cache.items) && (answer.Hit? ==> Agrees(bins, bin, answer.response))
    {
      hide FlightEnd, EndsWith, TableAtEnd, ValidEnrichment, RowGood, AfterSet, IsOrder;
      var cached := cache.Get(bin, x.getNow);
      if cached.Some? {
        return Hit(cached.value), [];
      }
      var missed := misses.Get(bin, x.missNow);
      if missed.Some? {
        return Absent, [];
      }
      ghost var before := cache.items;
      ghost var beforeMisses := misses.items;
      answer, asked := Fly(bin, x);
      if answer.Hit? {
        SetIsFound(before, MAX_ENTRIES, TTL, bin, answer.response, x, cache.items);
      } else if answer.Absent? {
        SetIsFound(beforeMisses, MAX_MISSES, MISS_TTL, bin, true, x, misses.items);
      }
      if Coherent(old(bins), before) {
        StaysCoherent(old(bins), bins, bin, before);
        if answer.Hit? {
          SetStaysCoherent(bins, before, bin, answer.response, x, cache.items);
        }
      }
    }
  }

  /** The table gained one good row, under `key`. */
  ghost predicate NewRow(before: Table, key: string, after: Table) {
    && key !in before && key in after && after == Upserted(before, after[key])
    && after[key].bin == key && ValidEnrichment(after[key]) && RowGood(after[key]) && after[key].source != LOCAL
  }

  lemma StaysCoherent(before: Table, after: Table, key: string, items: Items<Response>)
    requires Coherent(before, items)
    requires after == before || (GetByBin(before, key).None? && NewRow(before, key, after))
    ensures Coherent(after, items)
  {
    hide ValidEnrichment, RowGood;
    if after != before {
      forall k | k in items ensures Agrees(after, k, items[k].value) {
        NewRowKeepsAnswers(before, after[key], k, items[k].value);
      }
    }
  }

  lemma SetStaysCoherent(db: Table, before: Items<Response>, bin: string, r: Response, x: Conditions,
                         after: Items<Response>)
    requires Coherent(db, before) && Agrees(db, bin, r) && WasSet(before, MAX_ENTRIES, TTL, bin, r, x, after)
    ensures Coherent(db, after)
  {
    hide Agrees;
    var order :| IsOrder(order, before.Keys)
      && after == AfterSet(before, MAX_ENTRIES, TTL, bin, r, order, x.evictNow, x.setNow);
    SetKeepsCoherent(db, before, MAX_ENTRIES, TTL, bin, r, order, x.evictNow, x.setNow);
  }

  lemma SetWas<V>(before: Items<V>, max: int, ttl: int, key: string, v: V, x: Conditions, after: Items<V>)
    requires exists order | IsOrder(order, before.Keys) ::
               after == AfterSet(before, max, ttl, key, v, order, x.evictNow, x.setNow)
    ensures WasSet(before, max, ttl, key, v, x, after)
  {
    hide AfterSet;
  }

  /** The decision table is what the stages of a flight lead to. */
  lemma DecidesEnd(c: Config, reserved: bool, bin: string, x: Conditions, db: Table,
                   db': Table, answer: Answer, asked: seq<Provider>)
    requires Decides(c, reserved, bin, x, db, db', answer, asked) && (reserved ==> c.handy)
    ensures EndsWith(FlightEnd(c, reserved, bin, x, db), x, answer)
    ensures db' == TableAtEnd(FlightEnd(c, reserved, bin, x, db), x, db)
  {
    hide ValidEnrichment, ToResponse;
  }

  /** What its answers mean for the table. */
  lemma DecidesMeans(c: Config, reserved: bool, bin: string, x: Conditions, db: Table,
                     db': Table, answer: Answer, asked: seq<Provider>)
    requires Decides(c, reserved, bin, x, db, db', answer, asked)
    ensures x.readOk && GetByBin(db, bin).Some? ==> answer == Hit(ToResponse(GetByBin(db, bin).value))
    ensures answer.Hit? ==> Agrees(db', bin, answer.response)
    ensures answer.Absent? ==> x.readOk && GetByBin(db', bin).None? && (c.enrich ==> x.binlist.NotFound?)
    ensures db' == db || (GetByBin(db, bin).None? && NewRow(db, bin, db'))
    ensures asked != [] ==> x.readOk && c.enrich && GetByBin(db, bin).None?
  {
    if x.handy.Found? && ValidEnrichment(FromHandy(bin, x.handy.value)) {
      HandyRecordGood(bin, x.handy.value);
    }
    if x.binlist.Found? && ValidEnrichment(FromBinlist(bin, x.binlist.value)) {
      BinlistRecordGood(bin, x.binlist.value);
    }
    assert x.handy.Found? ==> FromHandy(bin, x.handy.value).bin == bin;
    assert x.binlist.Found? ==> FromBinlist(bin, x.binlist.value).bin == bin;
    hide ValidEnrichment, ToResponse, FromHandy, FromBinlist, RowGood;
  }

  lemma SetIsFound<V>(before: Items<V>, max: int, ttl: int, key: string, v: V, x: Conditions, after: Items<V>)
    requires WasSet(before, max, ttl, key, v, x, after)
    ensures forall t | t <= x.setNow + ttl :: Find(after, key, t) == Some(v)
  {
  }

  lemma HandyRecordGood(bin: string, h: HandyAnswer)
    requires ValidEnrichment(FromHandy(bin, h))
    ensures RowGood(FromHandy(bin, h)) && FromHandy(bin, h).source != LOCAL
  {
    hide *;
    EnrichedRecordGood(bin, h, BinlistAnswer("", "", "", None, "", "", "", "", "", "", None, None));
  }

  lemma BinlistRecordGood(bin: string, r: BinlistAnswer)
    requires ValidEnrichment(FromBinlist(bin, r))
    ensures RowGood(FromBinlist(bin, r)) && FromBinlist(bin, r).source != LOCAL
  {
    hide *;
    EnrichedRecordGood(bin, HandyAnswer("", "", "", "", "", ""), r);
  }
}
