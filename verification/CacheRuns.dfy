/**
 Whole runs of the TTL cache: which entries an eviction can remove, refinement of
 a plain "live map", independence of the iteration order, retention and capacity.
*/
module CacheRuns {
  import opened Wrappers
  import opened TtlCache

  // ----- one eviction -----

  /** What an eviction may remove: an expired entry, or the oldest when all are live. */
  ghost predicate Evictable<V>(items: Items<V>, k: string, now: int) {
    && k in items
    && (Live(items[k], now) ==>
          forall j | j in items :: Live(items[j], now) && items[k].expiresAt <= items[j].expiresAt)
  }

  /** `k` is an oldest entry of the keys visited so far, which are all live. */
  ghost predicate OldestOf<V>(items: Items<V>, order: seq<string>, k: string, now: int)
    requires forall j | j in order :: j in items
  {
    && k in order
    && forall j | j in order :: Live(items[j], now) && items[k].expiresAt <= items[j].expiresAt
  }

  lemma {:induction false} ScanFinds<V>(items: Items<V>, order: seq<string>, now: int)
    requires (forall k | k in order :: k in items) && "" !in order
    ensures match ScanAlong(items, order, now)
            case Expired(k) => k in order && !Live(items[k], now)
            case Oldest(k) => if order == [] then k == "" else OldestOf(items, order, k, now)
  {
    if order != [] {
      var n := |order| - 1;
      assert order == order[..n] + [order[n]];
      ScanFinds(items, order[..n], now);
    }
  }

  lemma {:induction false} StaysOldest<V>(items: Items<V>, order: seq<string>, tail: seq<string>, k: string, now: int)
    requires forall j | j in order + tail :: j in items
    requires forall j | j in order :: j in order + tail
    requires k != "" && k in order
    requires forall j | j in tail :: Live(items[j], now) && items[k].expiresAt <= items[j].expiresAt
    requires ScanAlong(items, order, now) == Oldest(k)
    ensures ScanAlong(items, order + tail, now) == Oldest(k)
  {
    if tail == [] {
      assert order + tail == order;
    } else {
      var n := |tail| - 1;
      assert (order + tail)[..|order + tail| - 1] == order + tail[..n];
      assert tail[n] in tail;
      StaysOldest(items, order, tail[..n], k, now);
    }
  }

  /** Every iteration order removes one evictable entry... */
  lemma VictimIsEvictable<V>(items: Items<V>, order: seq<string>, now: int)
    requires IsOrder(order, items.Keys) && "" !in items && items != map[]
    ensures Victim(items, order, now).Some? && Evictable(items, Victim(items, order, now).value, now)
  {
    ScanFinds(items, order, now);
    var k :| k in items;
    assert k in order;
  }

  /** ...and each evictable entry is removed by some iteration order. */
  lemma EvictableIsVictim<V>(items: Items<V>, k: string, now: int) returns (order: seq<string>)
    requires k != "" && Evictable(items, k, now)
    ensures IsOrder(order, items.Keys) && Victim(items, order, now) == Some(k)
  {
    var tail := SomeOrder(items.Keys - {k});
    AppendOrder([k], {k}, tail, items.Keys - {k});
    assert {k} + (items.Keys - {k}) == items.Keys;
    order := [k] + tail;
    assert ScanAlong(items, [], now) == Oldest("");
    assert [k][..0] == [];
    if Live(items[k], now) {
      StaysOldest(items, [k], tail, k, now);
    } else {
      StaysExpired(items, [k], tail, now);
    }
  }

  /** Every entry is live and the empty key's entry is strictly older than all others. */
  ghost predicate EmptyKeyOldest<V>(items: Items<V>, now: int) {
    && "" in items && Live(items[""], now)
    && forall k | k in items && k != "" :: Live(items[k], now) && items[""].expiresAt < items[k].expiresAt
  }

  /**
   The `""` marker: an eviction of a cache that holds the empty key can remove nothing,
   exactly when all entries are live and the empty key's entry is strictly the oldest.
  */
  lemma EvictsNothingIff<V>(items: Items<V>, now: int)
    requires items != map[]
    ensures (exists order :: IsOrder(order, items.Keys) && Victim(items, order, now) == None)
       <==> EmptyKeyOldest(items, now)
  {
    if order :| IsOrder(order, items.Keys) && Victim(items, order, now) == None {
      EmptyKeyLast(items, order, now);
    }
    if EmptyKeyOldest(items, now) {
      var order := NothingEvicted(items, now);
    }
  }

  lemma NothingEvicted<V>(items: Items<V>, now: int) returns (order: seq<string>)
    requires EmptyKeyOldest(items, now)
    ensures IsOrder(order, items.Keys) && Victim(items, order, now) == None
  {
    var others := SomeOrder(items.Keys - {""});
    AppendOrder(others, items.Keys - {""}, [""], {""});
    assert items.Keys - {""} + {""} == items.Keys;
    ScanFinds(items, others, now);
    order := others + [""];
    assert order[..|others|] == others;
  }

  /** A walk that evicts nothing ends with the empty key, which is older than the candidate `o` it had. */
  lemma EndsWithEmptyKey<V>(items: Items<V>, order: seq<string>, now: int) returns (o: string)
    requires IsOrder(order, items.Keys) && order != [] && Victim(items, order, now) == None
    ensures order[|order| - 1] == "" && Live(items[""], now)
    ensures forall k | k in order[..|order| - 1] :: k in items
    ensures ScanAlong(items, order[..|order| - 1], now) == Oldest(o)
    ensures o != "" ==> o in items && items[""].expiresAt < items[o].expiresAt
  {
    o := ScanAlong(items, order[..|order| - 1], now).key;
  }

  lemma EmptyKeyLast<V>(items: Items<V>, order: seq<string>, now: int)
    requires IsOrder(order, items.Keys) && items != map[] && Victim(items, order, now) == None
    ensures EmptyKeyOldest(items, now)
  {
    assert order != [] by {
      var some :| some in items;
      assert some in order;
    }
    var o := EndsWithEmptyKey(items, order, now);
    FrontKeys(order, items.Keys);
    hide IsOrder, Victim;
    ScanFinds(items, order[..|order| - 1], now);
    hide ScanAlong;
    forall k | k in items && k != ""
      ensures Live(items[k], now) && items[""].expiresAt < items[k].expiresAt
    {
      assert k in order[..|order| - 1];
    }
  }

  lemma FrontKeys(order: seq<string>, keys: set<string>)
    requires IsOrder(order, keys) && order != []
    ensures order[|order| - 1] in keys
    ensures forall k :: k in order[..|order| - 1] <==> k in keys && k != order[|order| - 1]
  {
    var n := |order| - 1;
    assert order[n] in order;
    forall k | k in keys && k != order[n] ensures k in order[..n] {
      assert k in order;
    }
    forall k | k in order[..n] ensures k in keys && k != order[n] {
      assert k in order;
    }
  }

  // ----- runs -----

  datatype Op<V> =
    | Set(key: string, value: V, evictNow: int, setNow: int)
    | Get(key: string, now: int)
    | Cleanup(now: int)
  {
    function Start(): int { if Set? then evictNow else now }
    function End(): int { if Set? then setNow else now }
  }

  ghost predicate SetAlong<V>(max: int, ttl: int, s: Items<V>, op: Op<V>, s': Items<V>, order: seq<string>)
    requires op.Set?
  {
    && IsOrder(order, s.Keys)
    && s' == AfterSet(s, max, ttl, op.key, op.value, order, op.evictNow, op.setNow)
  }

  ghost predicate Step<V>(max: int, ttl: int, s: Items<V>, op: Op<V>, s': Items<V>) {
    match op
    case Set(_, _, _, _) => exists order :: SetAlong(max, ttl, s, op, s', order)
    case Get(_, _) => s' == s
    case Cleanup(t) => s' == LivePart(s, t)
  }

  /** The clock never goes back, and no operation uses the empty key. */
  ghost predicate Timed<V>(ops: seq<Op<V>>) {
    && (forall i | 0 <= i < |ops| :: ops[i].Start() <= ops[i].End() && (ops[i].Cleanup? || ops[i].key != ""))
    && (forall i, j | 0 <= i < j < |ops| :: ops[i].End() <= ops[j].Start())
  }

  ghost predicate IsRun<V>(max: int, ttl: int, ops: seq<Op<V>>, states: seq<Items<V>>) {
    && |states| == |ops| + 1
    && states[0] == map[]
    && forall i | 0 <= i < |ops| :: Step(max, ttl, states[i], ops[i], states[i + 1])
  }

  /** `Set`, with the iteration order replaced by the choice of a victim. */
  ghost predicate SetRemoves<V>(max: int, ttl: int, s: Items<V>, op: Op<V>, s': Items<V>, victim: Option<string>)
    requires op.Set?
  {
    && (victim.Some? <==> op.key !in s && |s| >= max)
    && (victim.Some? ==> Evictable(s, victim.value, op.evictNow))
    && s' == Without(s, victim)[op.key := Entry(op.value, op.setNow + ttl)]
  }

  lemma SetPicks<V>(max: int, ttl: int, s: Items<V>, op: Op<V>, s': Items<V>) returns (victim: Option<string>)
    requires op.Set? && "" !in s && max >= 1 && Step(max, ttl, s, op, s')
    ensures SetRemoves(max, ttl, s, op, s', victim)
  {
    var order :| SetAlong(max, ttl, s, op, s', order);
    if op.key !in s && |s| >= max {
      VictimIsEvictable(s, order, op.evictNow);
      victim := Victim(s, order, op.evictNow);
    } else {
      victim := None;
    }
  }

  lemma PickSets<V>(max: int, ttl: int, s: Items<V>, op: Op<V>, s': Items<V>, victim: Option<string>)
    requires op.Set? && "" !in s && SetRemoves(max, ttl, s, op, s', victim)
    ensures Step(max, ttl, s, op, s')
  {
    var order;
    if victim.Some? {
      order := EvictableIsVictim(s, victim.value, op.evictNow);
    } else {
      order := SomeOrder(s.Keys);
    }
    assert SetAlong(max, ttl, s, op, s', order);
  }

  lemma SizeAfterRemoving<V>(s: Items<V>, k: string)
    requires k in s
    ensures |s - {k}| == |s| - 1
  {
    assert (s - {k}).Keys == s.Keys - {k};
    assert |(s - {k}).Keys| == |s - {k}|;
  }

  lemma StepKeepsBound<V>(max: int, ttl: int, s: Items<V>, op: Op<V>, s': Items<V>)
    requires max >= 1 && Step(max, ttl, s, op, s')
    requires |s| <= max && "" !in s && (op.Cleanup? || op.key != "")
    ensures |s'| <= max && "" !in s'
  {
    match op
    case Set(k, v, _, _) =>
      var victim := SetPicks(max, ttl, s, op, s');
      SetKeepsBound(max, ttl, s, op, s', victim);
    case Get(_, _) =>
    case Cleanup(t) => LivePartSize(s, t);
  }

  lemma SetKeepsBound<V>(max: int, ttl: int, s: Items<V>, op: Op<V>, s': Items<V>, victim: Option<string>)
    requires max >= 1 && op.Set? && SetRemoves(max, ttl, s, op, s', victim)
    requires |s| <= max && "" !in s && op.key != ""
    ensures |s'| <= max && "" !in s'
  {
    var kept := Without(s, victim);
    if victim.Some? { SizeAfterRemoving(s, victim.value); }
    assert s'.Keys == kept.Keys + {op.key};
    assert |s'.Keys| == |s'| && |kept.Keys| == |kept|;
  }

  lemma LivePartSize<V>(s: Items<V>, now: int)
    ensures LivePart(s, now).Keys <= s.Keys && |LivePart(s, now)| <= |s|
    ensures |LivePart(s, now)| == |s| ==> LivePart(s, now) == s
  {
    var live := LivePart(s, now);
    assert s.Keys == live.Keys + (s.Keys - live.Keys);
    assert |live.Keys| == |live| && |s.Keys| == |s|;
  }

  lemma RunPrefix<V>(max: int, ttl: int, ops: seq<Op<V>>, states: seq<Items<V>>, n: nat)
    requires Timed(ops) && IsRun(max, ttl, ops, states) && n <= |ops|
    ensures Timed(ops[..n]) && IsRun(max, ttl, ops[..n], states[..n + 1]) && states[..n + 1][n] == states[n]
  {
  }

  /** The capacity is never exceeded. */
  lemma {:induction false} NeverOverCapacity<V>(max: int, ttl: int, ops: seq<Op<V>>, states: seq<Items<V>>, i: nat)
    requires max >= 1 && Timed(ops) && IsRun(max, ttl, ops, states) && i <= |ops|
    ensures |states[i]| <= max && "" !in states[i]
  {
    if i > 0 {
      NeverOverCapacity(max, ttl, ops, states, i - 1);
      StepKeepsBound(max, ttl, states[i - 1], ops[i - 1], states[i]);
    }
  }

  // ----- refinement of a live map -----

  /** `k` is an oldest entry of the live map. */
  ghost predicate OldestEntry<V>(live: Items<V>, k: string) {
    k in live && forall j | j in live :: live[k].expiresAt <= live[j].expiresAt
  }

  ghost function PickOldest<V>(live: Items<V>): (k: string)
    requires live != map[]
    ensures OldestEntry(live, k)
  {
    HasOldest(live);
    var k :| OldestEntry(live, k);
    k
  }

  lemma HasOldest<V>(live: Items<V>)
    requires live != map[]
    ensures exists k :: OldestEntry(live, k)
    decreases |live|
  {
    var x :| x in live;
    if live.Keys == {x} {
      assert OldestEntry(live, x);
    } else {
      SizeAfterRemoving(live, x);
      var rest := live - {x};
      assert rest.Keys != {};
      HasOldest(rest);
      var k :| OldestEntry(rest, k);
      assert forall j | j in live :: j == x || j in rest;
      assert forall j | j in rest :: live[k].expiresAt <= live[j].expiresAt;
      assert OldestEntry(live, if live[x].expiresAt <= live[k].expiresAt then x else k);
    }
  }

  /** What a live map does: only a `Set` of a non-live key with `max` live keys drops something, an oldest entry. */
  ghost predicate LiveStep<V>(max: int, ttl: int, live: Items<V>, op: Op<V>, live': Items<V>) {
    if op.Set? then exists victim :: LiveSet(max, ttl, LivePart(live, op.evictNow), op, live', victim)
    else live' == live
  }

  ghost predicate LiveSet<V>(max: int, ttl: int, live: Items<V>, op: Op<V>, live': Items<V>, victim: Option<string>)
    requires op.Set?
  {
    && (victim.Some? <==> op.key !in live && |live| >= max)
    && (victim.Some? ==> OldestEntry(live, victim.value))
    && live' == Without(live, victim)[op.key := Entry(op.value, op.setNow + ttl)]
  }

  lemma LaterLive<V>(s: Items<V>, now: int, t: int)
    requires now <= t
    ensures LivePart(LivePart(s, now), t) == LivePart(s, t)
  {
  }

  /** With every key live the cache is the live map; otherwise its live part has room to spare. */
  lemma SetAgrees<V>(max: int, ttl: int, s: Items<V>, op: Op<V>, s': Items<V>, victim: Option<string>)
    returns (live': Items<V>, dropped: Option<string>)
    requires op.Set? && "" !in s && |s| <= max && op.evictNow <= op.setNow
    requires SetRemoves(max, ttl, s, op, s', victim)
    ensures LiveSet(max, ttl, LivePart(s, op.evictNow), op, live', dropped)
    ensures LivePart(s', op.setNow) == LivePart(live', op.setNow)
  {
    var live := LivePart(s, op.evictNow);
    LivePartSize(s, op.evictNow);
    dropped := if victim.Some? && Live(s[victim.value], op.evictNow) then victim else None;
    live' := Without(live, dropped)[op.key := Entry(op.value, op.setNow + ttl)];
    if op.key !in live && |live| >= max {
      assert live == s;
      assert victim.Some?;
    }
    if dropped.Some? {
      assert forall j | j in s :: Live(s[j], op.evictNow);
      assert live == s;
    }
  }

  /** Each step of the cache is a step of the live map; reads agree; a cleanup is invisible. */
  lemma StepRefines<V>(max: int, ttl: int, s: Items<V>, live: Items<V>, op: Op<V>, s': Items<V>, now: int)
    returns (live': Items<V>)
    requires max >= 1 && |s| <= max && "" !in s && Step(max, ttl, s, op, s')
    requires now <= op.Start() <= op.End() && LivePart(s, now) == LivePart(live, now)
    ensures LiveStep(max, ttl, live, op, live')
    ensures LivePart(s', op.End()) == LivePart(live', op.End())
    ensures op.Get? ==> Find(s, op.key, op.now) == Find(live, op.key, op.now)
  {
    LaterLive(s, now, op.Start());
    LaterLive(live, now, op.Start());
    match op
    case Set(_, _, _, _) =>
      var victim := SetPicks(max, ttl, s, op, s');
      var dropped;
      live', dropped := SetAgrees(max, ttl, s, op, s', victim);
    case Get(k, t) =>
      live' := live;
      assert k in LivePart(s, t) <==> k in LivePart(live, t);
    case Cleanup(t) =>
      live' := live;
      LaterLive(s, t, t);
  }

  lemma SetAgreesBack<V>(max: int, ttl: int, s: Items<V>, op: Op<V>, live': Items<V>, dropped: Option<string>)
    returns (s': Items<V>, victim: Option<string>)
    requires op.Set? && "" !in s && |s| <= max && max >= 1 && op.evictNow <= op.setNow
    requires LiveSet(max, ttl, LivePart(s, op.evictNow), op, live', dropped)
    ensures SetRemoves(max, ttl, s, op, s', victim)
    ensures LivePart(s', op.setNow) == LivePart(live', op.setNow)
  {
    var now := op.evictNow;
    var live := LivePart(s, now);
    LivePartSize(s, now);
    if op.key in s || |s| < max {
      victim := None;
      assert dropped.None?;
    } else if dropped.Some? {
      assert live == s;
      victim := dropped;
    } else {
      assert live != s;
      var stale := StaleKey(s, now);
      victim := Some(stale);
    }
    s' := Without(s, victim)[op.key := Entry(op.value, op.setNow + ttl)];
    assert SetRemoves(max, ttl, s, op, s', victim);
    LiveWithout(s, victim, dropped, now, op.setNow);
    SameLiveWith(Without(s, victim), Without(live, dropped), op.key, Entry(op.value, op.setNow + ttl), op.setNow);
  }

  lemma StaleKey<V>(s: Items<V>, now: int) returns (k: string)
    requires LivePart(s, now) != s
    ensures k in s && !Live(s[k], now)
  {
    k :| k in s && k !in LivePart(s, now);
  }

  /** Dropping an expired entry is dropping nothing from the live part. */
  lemma LiveWithout<V>(s: Items<V>, victim: Option<string>, dropped: Option<string>, now: int, t: int)
    requires now <= t && (victim == dropped || (dropped.None? && victim.value in s && !Live(s[victim.value], now)))
    ensures LivePart(Without(s, victim), t) == LivePart(Without(LivePart(s, now), dropped), t)
  {
  }

  lemma LiveWith<V>(items: Items<V>, key: string, e: Entry<V>, t: int)
    ensures LivePart(items[key := e], t)
         == if Live(e, t) then LivePart(items, t)[key := e] else LivePart(items, t) - {key}
  {
  }

  lemma WithoutAbsent<V>(items: Items<V>, key: string)
    requires key !in items
    ensures items - {key} == items
  {
  }

  lemma SameLiveWith<V>(a: Items<V>, b: Items<V>, key: string, e: Entry<V>, t: int)
    requires LivePart(a, t) == LivePart(b, t)
    ensures LivePart(a[key := e], t) == LivePart(b[key := e], t)
  {
    LiveWith(a, key, e, t);
    LiveWith(b, key, e, t);
    hide LivePart;
  }

  /** Conversely the cache can follow every choice of the live map, so the two have the same behaviours. */
  lemma StepRealises<V>(max: int, ttl: int, s: Items<V>, live: Items<V>, op: Op<V>, live': Items<V>, now: int)
    returns (s': Items<V>)
    requires max >= 1 && |s| <= max && "" !in s && LiveStep(max, ttl, live, op, live')
    requires now <= op.Start() <= op.End() && LivePart(s, now) == LivePart(live, now)
    ensures Step(max, ttl, s, op, s')
    ensures LivePart(s', op.End()) == LivePart(live', op.End())
  {
    LaterLive(s, now, op.Start());
    LaterLive(live, now, op.Start());
    match op
    case Set(_, _, t, _) =>
      var dropped :| LiveSet(max, ttl, LivePart(live, t), op, live', dropped);
      var victim;
      s', victim := SetAgreesBack(max, ttl, s, op, live', dropped);
      PickSets(max, ttl, s, op, s', victim);
    case Get(_, _) => s' := s;
    case Cleanup(t) =>
      s' := LivePart(s, t);
      LaterLive(s, t, t);
  }

  ghost predicate IsLiveRun<V>(max: int, ttl: int, ops: seq<Op<V>>, lives: seq<Items<V>>) {
    && |lives| == |ops| + 1
    && lives[0] == map[]
    && forall i | 0 <= i < |ops| :: LiveStep(max, ttl, lives[i], ops[i], lives[i + 1])
  }

  /** All reads of the run get the answers the live maps give. */
  ghost predicate SameAnswers<V>(ops: seq<Op<V>>, states: seq<Items<V>>, lives: seq<Items<V>>)
    requires |states| == |lives| == |ops| + 1
  {
    forall i | 0 <= i < |ops| && ops[i].Get? ::
      Find(states[i], ops[i].key, ops[i].now) == Find(lives[i], ops[i].key, ops[i].now)
  }

  /** The instant from which state `i` of a run is looked at. */
  function ClockAt<V>(ops: seq<Op<V>>, i: nat): int
    requires i <= |ops|
  {
    if i == 0 then (if ops == [] then 0 else ops[0].Start()) else ops[i - 1].End()
  }

  lemma LiveRunSnoc<V>(max: int, ttl: int, ops: seq<Op<V>>, states: seq<Items<V>>, front: seq<Items<V>>,
                       live': Items<V>)
    requires ops != [] && |states| == |ops| + 1
    requires var n := |ops| - 1;
             && IsLiveRun(max, ttl, ops[..n], front) && SameAnswers(ops[..n], states[..n + 1], front)
             && LiveStep(max, ttl, front[n], ops[n], live')
             && (ops[n].Get? ==> Find(states[n], ops[n].key, ops[n].now) == Find(front[n], ops[n].key, ops[n].now))
    ensures IsLiveRun(max, ttl, ops, front + [live']) && SameAnswers(ops, states, front + [live'])
  {
    var n := |ops| - 1;
    var lives := front + [live'];
    forall i | 0 <= i < |ops| ensures LiveStep(max, ttl, lives[i], ops[i], lives[i + 1]) {
      if i < n { assert LiveStep(max, ttl, front[i], ops[..n][i], front[i + 1]); }
    }
    forall i | 0 <= i < |ops| && ops[i].Get?
      ensures Find(states[i], ops[i].key, ops[i].now) == Find(lives[i], ops[i].key, ops[i].now)
    {
      if i < n { assert ops[..n][i].Get? && states[..n + 1][i] == states[i]; }
    }
  }

  /** Every run of the cache answers its reads like a run of the live map. */
  lemma {:induction false} RunRefines<V>(max: int, ttl: int, ops: seq<Op<V>>, states: seq<Items<V>>)
    returns (lives: seq<Items<V>>)
    requires max >= 1 && Timed(ops) && IsRun(max, ttl, ops, states)
    ensures IsLiveRun(max, ttl, ops, lives) && SameAnswers(ops, states, lives)
    ensures LivePart(states[|ops|], ClockAt(ops, |ops|)) == LivePart(lives[|ops|], ClockAt(ops, |ops|))
  {
    if ops == [] {
      lives := [map[]];
    } else {
      var n := |ops| - 1;
      RunPrefix(max, ttl, ops, states, n);
      var front := RunRefines(max, ttl, ops[..n], states[..n + 1]);
      NeverOverCapacity(max, ttl, ops, states, n);
      assert n > 0 ==> ClockAt(ops[..n], n) == ClockAt(ops, n);
      var live' := StepRefines(max, ttl, states[n], front[n], ops[n], states[n + 1], ClockAt(ops, n));
      lives := front + [live'];
      LiveRunSnoc(max, ttl, ops, states, front, live');
    }
  }

  lemma LiveRunPrefix<V>(max: int, ttl: int, ops: seq<Op<V>>, lives: seq<Items<V>>, n: nat)
    requires Timed(ops) && IsLiveRun(max, ttl, ops, lives) && n <= |ops|
    ensures Timed(ops[..n]) && IsLiveRun(max, ttl, ops[..n], lives[..n + 1]) && lives[..n + 1][n] == lives[n]
  {
  }

  lemma RunSnoc<V>(max: int, ttl: int, ops: seq<Op<V>>, front: seq<Items<V>>, state': Items<V>, lives: seq<Items<V>>)
    requires ops != [] && |lives| == |ops| + 1
    requires var n := |ops| - 1;
             && IsRun(max, ttl, ops[..n], front) && SameAnswers(ops[..n], front, lives[..n + 1])
             && Step(max, ttl, front[n], ops[n], state')
             && (ops[n].Get? ==> Find(front[n], ops[n].key, ops[n].now) == Find(lives[n], ops[n].key, ops[n].now))
    ensures IsRun(max, ttl, ops, front + [state']) && SameAnswers(ops, front + [state'], lives)
  {
    var n := |ops| - 1;
    var states := front + [state'];
    forall i | 0 <= i < |ops| ensures Step(max, ttl, states[i], ops[i], states[i + 1]) {
      if i < n { assert Step(max, ttl, front[i], ops[..n][i], front[i + 1]); }
    }
    forall i | 0 <= i < |ops| && ops[i].Get?
      ensures Find(states[i], ops[i].key, ops[i].now) == Find(lives[i], ops[i].key, ops[i].now)
    {
      if i < n { assert ops[..n][i].Get? && lives[..n + 1][i] == lives[i]; }
    }
  }

  /** Every run of the live map is the answers of some run of the cache. */
  lemma {:induction false} RunRealises<V>(max: int, ttl: int, ops: seq<Op<V>>, lives: seq<Items<V>>)
    returns (states: seq<Items<V>>)
    requires max >= 1 && Timed(ops) && IsLiveRun(max, ttl, ops, lives)
    ensures IsRun(max, ttl, ops, states) && SameAnswers(ops, states, lives)
    ensures LivePart(states[|ops|], ClockAt(ops, |ops|)) == LivePart(lives[|ops|], ClockAt(ops, |ops|))
  {
    if ops == [] {
      states := [map[]];
    } else {
      var n := |ops| - 1;
      LiveRunPrefix(max, ttl, ops, lives, n);
      var front := RunRealises(max, ttl, ops[..n], lives[..n + 1]);
      assert n > 0 ==> ClockAt(ops[..n], n) == ClockAt(ops, n);
      NeverOverCapacity(max, ttl, ops[..n], front, n);
      var state' := StepRealises(max, ttl, front[n], lives[n], ops[n], lives[n + 1], ClockAt(ops, n));
      if ops[n].Get? {
        var _ := StepRefines(max, ttl, front[n], lives[n], ops[n], state', ClockAt(ops, n));
      }
      states := front + [state'];
      RunSnoc(max, ttl, ops, front, state', lives);
    }
  }

  // ----- values and retention -----

  /** The entry that the latest `Set` of `k` in `ops` wrote. */
  ghost predicate FromLatestSet<V>(ops: seq<Op<V>>, ttl: int, k: string, e: Entry<V>) {
    exists j :: LatestSetAt(ops, j, k) && e == Entry(ops[j].value, ops[j].setNow + ttl)
  }

  ghost predicate LatestSetAt<V>(ops: seq<Op<V>>, j: int, k: string) {
    && 0 <= j < |ops| && ops[j].Set? && ops[j].key == k
    && forall m | j < m < |ops| && ops[m].Set? :: ops[m].key != k
  }

  lemma LatestSetExtends<V>(ops: seq<Op<V>>, op: Op<V>, ttl: int, k: string, e: Entry<V>)
    requires FromLatestSet(ops, ttl, k, e) && !(op.Set? && op.key == k)
    ensures FromLatestSet(ops + [op], ttl, k, e)
  {
    var j :| LatestSetAt(ops, j, k) && e == Entry(ops[j].value, ops[j].setNow + ttl);
    assert LatestSetAt(ops + [op], j, k);
  }

  lemma LatestSetIsNew<V>(ops: seq<Op<V>>, op: Op<V>, ttl: int)
    requires op.Set?
    ensures FromLatestSet(ops + [op], ttl, op.key, Entry(op.value, op.setNow + ttl))
  {
    assert LatestSetAt(ops + [op], |ops|, op.key);
  }

  /** No step invents an entry: it keeps the old one or writes the one being set. */
  lemma EntryOrigin<V>(max: int, ttl: int, s: Items<V>, op: Op<V>, s': Items<V>, k: string)
    requires max >= 1 && "" !in s && Step(max, ttl, s, op, s') && k in s'
    ensures if op.Set? && op.key == k then s'[k] == Entry(op.value, op.setNow + ttl) else k in s && s'[k] == s[k]
  {
    if op.Set? {
      var victim := SetPicks(max, ttl, s, op, s');
    }
  }

  /** Each entry of the cache is the one its key's latest `Set` wrote. */
  lemma {:induction false} EntriesAreLatest<V>(max: int, ttl: int, ops: seq<Op<V>>, states: seq<Items<V>>, k: string)
    requires max >= 1 && Timed(ops) && IsRun(max, ttl, ops, states) && k in states[|ops|]
    ensures FromLatestSet(ops, ttl, k, states[|ops|][k])
  {
    if ops != [] {
      var n := |ops| - 1;
      NeverOverCapacity(max, ttl, ops, states, n);
      EntryOrigin(max, ttl, states[n], ops[n], states[n + 1], k);
      assert ops == ops[..n] + [ops[n]];
      if ops[n].Set? && ops[n].key == k {
        LatestSetIsNew(ops[..n], ops[n], ttl);
      } else {
        EntriesAreLatest(max, ttl, ops[..n], states[..n + 1], k);
        LatestSetExtends(ops[..n], ops[n], ttl, k, states[n][k]);
      }
    }
  }

  /** A read returns the value of the key's latest `Set`, and never after its time to live. */
  lemma ReadsLatestValue<V>(max: int, ttl: int, ops: seq<Op<V>>, states: seq<Items<V>>, i: nat)
    returns (j: nat)
    requires max >= 1 && Timed(ops) && IsRun(max, ttl, ops, states)
    requires i < |ops| && ops[i].Get? && Find(states[i], ops[i].key, ops[i].now).Some?
    ensures j < i && LatestSetAt(ops[..i], j, ops[i].key)
    ensures Find(states[i], ops[i].key, ops[i].now) == Some(ops[j].value)
    ensures ops[i].now <= ops[j].setNow + ttl
  {
    var k := ops[i].key;
    EntriesAreLatest(max, ttl, ops[..i], states[..i + 1], k);
    j :| LatestSetAt(ops[..i], j, k) && states[i][k] == Entry(ops[..i][j].value, ops[..i][j].setNow + ttl);
  }

  /** The keys other than `k` that were set at clock reading `s` or later. */
  ghost function Others<V>(ops: seq<Op<V>>, k: string, s: int): set<string> {
    set j | 0 <= j < |ops| && ops[j].Set? && ops[j].key != k && ops[j].setNow >= s :: ops[j].key
  }

  lemma OthersGrow<V>(ops: seq<Op<V>>, n: nat, k: string, s: int)
    requires n <= |ops|
    ensures Others(ops[..n], k, s) <= Others(ops, k, s)
  {
    forall x | x in Others(ops[..n], k, s) ensures x in Others(ops, k, s) {
      var j :| 0 <= j < n && ops[..n][j].Set? && ops[..n][j].key == x && x != k && ops[..n][j].setNow >= s;
      assert ops[j].key == x;
    }
  }

  lemma YoungerIsOther<V>(max: int, ttl: int, ops: seq<Op<V>>, states: seq<Items<V>>, k: string, s: int, x: string)
    requires max >= 1 && Timed(ops) && IsRun(max, ttl, ops, states)
    requires x in states[|ops|] && x != k && states[|ops|][x].expiresAt >= s + ttl
    ensures x in Others(ops, k, s)
  {
    EntriesAreLatest(max, ttl, ops, states, x);
    var j :| LatestSetAt(ops, j, x) && states[|ops|][x] == Entry(ops[j].value, ops[j].setNow + ttl);
    assert ops[j].key == x && ops[j].setNow >= s;
  }

  /** When a live entry is evicted, all the other entries are younger than it. */
  lemma EvictionNeedsOthers<V>(max: int, ttl: int, ops: seq<Op<V>>, states: seq<Items<V>>, k: string, s: int)
    requires max >= 1 && Timed(ops) && IsRun(max, ttl, ops, states) && ops != []
    requires var n := |ops| - 1;
             && k in states[n] && states[n][k].expiresAt == s + ttl && k !in states[n + 1]
             && ops[n].Set? && ops[n].evictNow <= s + ttl && ops[n].setNow >= s
    ensures |Others(ops, k, s)| >= max
  {
    var n := |ops| - 1;
    var op := ops[n];
    NeverOverCapacity(max, ttl, ops, states, n);
    var victim := SetPicks(max, ttl, states[n], op, states[n + 1]);
    assert victim == Some(k);
    RunPrefix(max, ttl, ops, states, n);
    OthersGrow(ops, n, k, s);
    assert op.key in Others(ops, k, s);
    assert op.key !in states[n] && |states[n]| >= max;
    hide Step, IsRun, Timed, Others, SetRemoves;
    forall x | x in states[n].Keys - {k} ensures x in Others(ops, k, s) {
      YoungerIsOther(max, ttl, ops[..n], states[..n + 1], k, s, x);
    }
    EnoughOthers(states[n], k, op.key, Others(ops, k, s));
  }

  lemma EnoughOthers<V>(items: Items<V>, k: string, key: string, others: set<string>)
    requires k in items && key !in items && key in others && items.Keys - {k} <= others
    ensures |others| >= |items|
  {
    var rest := items.Keys - {k} + {key};
    assert |items.Keys| == |items| && |rest| == |items.Keys|;
    SubsetSize(rest, others);
  }

  /**
   Retention: until its time to live is over, a key set at `s` is in the cache with the value set,
   unless `max` distinct other keys were set at clock readings from `s` on.
  */
  lemma {:induction false} Retained<V>(max: int, ttl: int, ops: seq<Op<V>>, states: seq<Items<V>>, i: nat)
    requires max >= 1 && Timed(ops) && IsRun(max, ttl, ops, states)
    requires i < |ops| && ops[i].Set? && LatestSetAt(ops, i, ops[i].key)
    requires ClockAt(ops, |ops|) <= ops[i].setNow + ttl || i == |ops| - 1
    ensures Holds(ttl, states[|ops|], ops[i]) || |Others(ops, ops[i].key, ops[i].setNow)| >= max
  {
    var op := ops[i];
    var n := |ops| - 1;
    if i == n {
      RetainedAtFirst(max, ttl, ops, states);
    } else {
      assert LatestSetAt(ops[..n], i, op.key);
      RunPrefix(max, ttl, ops, states, n);
      assert ClockAt(ops[..n], n) <= op.setNow + ttl || i == n - 1;
      Retained(max, ttl, ops[..n], states[..n + 1], i);
      if Holds(ttl, states[n], op) {
        RetainedOneStep(max, ttl, ops, states, op);
      } else {
        OthersGrow(ops, n, op.key, op.setNow);
        SubsetSize(Others(ops[..n], op.key, op.setNow), Others(ops, op.key, op.setNow));
      }
    }
  }

  lemma RetainedAtFirst<V>(max: int, ttl: int, ops: seq<Op<V>>, states: seq<Items<V>>)
    requires max >= 1 && Timed(ops) && IsRun(max, ttl, ops, states)
    requires ops != [] && ops[|ops| - 1].Set?
    ensures Holds(ttl, states[|ops|], ops[|ops| - 1])
  {
    var n := |ops| - 1;
    NeverOverCapacity(max, ttl, ops, states, n);
    var _ := SetPicks(max, ttl, states[n], ops[n], states[n + 1]);
  }

  /** The cache still holds the entry written by the `Set` operation `op`. */
  ghost predicate Holds<V>(ttl: int, s: Items<V>, op: Op<V>)
    requires op.Set?
  {
    op.key in s && s[op.key] == Entry(op.value, op.setNow + ttl)
  }

  lemma RetainedOneStep<V>(max: int, ttl: int, ops: seq<Op<V>>, states: seq<Items<V>>, op: Op<V>)
    requires max >= 1 && Timed(ops) && IsRun(max, ttl, ops, states) && ops != []
    requires var n := |ops| - 1;
             && op.Set? && Holds(ttl, states[n], op) && !(ops[n].Set? && ops[n].key == op.key)
             && op.setNow <= ops[n].Start() && ops[n].End() <= op.setNow + ttl
    ensures Holds(ttl, states[|ops|], op) || |Others(ops, op.key, op.setNow)| >= max
  {
    var n := |ops| - 1;
    NeverOverCapacity(max, ttl, ops, states, n);
    if op.key in states[n + 1] {
      EntryOrigin(max, ttl, states[n], ops[n], states[n + 1], op.key);
    } else {
      assert Step(max, ttl, states[n], ops[n], states[n + 1]);
      EvictionNeedsOthers(max, ttl, ops, states, op.key, op.setNow);
    }
  }

  /** The retention guarantee as a reader sees it. */
  lemma ReadsWithinTtl<V>(max: int, ttl: int, ops: seq<Op<V>>, states: seq<Items<V>>, i: nat, j: nat)
    requires max >= 1 && Timed(ops) && IsRun(max, ttl, ops, states)
    requires i < j < |ops| && ops[i].Set? && LatestSetAt(ops[..j], i, ops[i].key)
    requires ops[j].Get? && ops[j].key == ops[i].key && ops[j].now <= ops[i].setNow + ttl
    ensures Find(states[j], ops[j].key, ops[j].now) == Some(ops[i].value)
         || |Others(ops[..j], ops[i].key, ops[i].setNow)| >= max
  {
    Retained(max, ttl, ops[..j], states[..j + 1], i);
  }

  // ----- what the iteration order can and cannot change -----

  /** No two entries expire at the same instant. */
  ghost predicate Distinct<V>(s: Items<V>) {
    forall a, b | a in s && b in s && s[a].expiresAt == s[b].expiresAt :: a == b
  }

  ghost predicate UniqueOldest<V>(items: Items<V>) {
    exists k :: k in items && forall j | j in items && j != k :: items[k].expiresAt < items[j].expiresAt
  }

  /** The old entries that a reader at `seen` finds after an eviction at `now` that walked the map along `order`. */
  ghost function Left<V>(items: Items<V>, order: seq<string>, now: int, seen: int): Items<V>
    requires IsOrder(order, items.Keys)
  {
    LivePart(Without(items, Victim(items, order, now)), seen)
  }

  /** A `Set` that has to evict. Nobody can read between its two clock readings: it holds the mutex. */
  ghost predicate Evicting<V>(max: int, items: Items<V>, op: Op<V>) {
    op.Set? && op.evictNow <= op.setNow && op.key !in items && |items| >= max
  }

  /** What readers find once the `Set` is done. */
  ghost function SeenAfter<V>(max: int, ttl: int, items: Items<V>, op: Op<V>, order: seq<string>): Items<V>
    requires op.Set? && IsOrder(order, items.Keys)
  {
    LivePart(AfterSet(items, max, ttl, op.key, op.value, order, op.evictNow, op.setNow), op.setNow)
  }

  /** Readers find the same whatever order the map was iterated in. */
  ghost predicate OrderInvisible<V>(max: int, ttl: int, items: Items<V>, op: Op<V>)
    requires op.Set?
  {
    forall a, b | IsOrder(a, items.Keys) && IsOrder(b, items.Keys) ::
      SeenAfter(max, ttl, items, op, a) == SeenAfter(max, ttl, items, op, b)
  }

  ghost predicate SomeExpired<V>(items: Items<V>, now: int) {
    exists k :: k in items && !Live(items[k], now)
  }

  /**
   The iteration order of an eviction cannot be observed exactly when some entry has expired by the time
   the `Set` is done, or a single entry is the oldest; live entries that tie for oldest make it observable.
  */
  lemma OrderInvisibleIff<V>(max: int, ttl: int, items: Items<V>, op: Op<V>)
    requires items != map[] && "" !in items && Evicting(max, items, op)
    ensures OrderInvisible(max, ttl, items, op) <==> SomeExpired(items, op.setNow) || UniqueOldest(items)
  {
    hide AfterSet, LivePart, Victim, UniqueOldest, SomeExpired, IsOrder;
    if SomeExpired(items, op.setNow) || UniqueOldest(items) {
      forall a, b | IsOrder(a, items.Keys) && IsOrder(b, items.Keys)
        ensures SeenAfter(max, ttl, items, op, a) == SeenAfter(max, ttl, items, op, b)
      {
        SameVictims(items, op.evictNow, op.setNow, a, b);
        SeenIsLeft(max, ttl, items, op, a, b);
      }
    } else {
      var a, b := TieIsVisible(items, op.evictNow, op.setNow);
      SeenIsLeft(max, ttl, items, op, a, b);
    }
  }

  /** The new entry does not help to tell two orders apart. */
  lemma SeenIsLeft<V>(max: int, ttl: int, items: Items<V>, op: Op<V>, a: seq<string>, b: seq<string>)
    requires Evicting(max, items, op) && IsOrder(a, items.Keys) && IsOrder(b, items.Keys)
    ensures SeenAfter(max, ttl, items, op, a) == SeenAfter(max, ttl, items, op, b)
       <==> Left(items, a, op.evictNow, op.setNow) == Left(items, b, op.evictNow, op.setNow)
  {
    assert op.Set?;
    hide *;
    SeenShape(max, ttl, items, op, a);
    SeenShape(max, ttl, items, op, b);
    SameWith(Left(items, a, op.evictNow, op.setNow), Left(items, b, op.evictNow, op.setNow), op.key,
             Entry(op.value, op.setNow + ttl));
  }

  lemma SeenShape<V>(max: int, ttl: int, items: Items<V>, op: Op<V>, order: seq<string>)
    requires Evicting(max, items, op) && IsOrder(order, items.Keys)
    ensures var (left, e) := (Left(items, order, op.evictNow, op.setNow), Entry(op.value, op.setNow + ttl));
            && op.key !in left
            && SeenAfter(max, ttl, items, op, order) == if Live(e, op.setNow) then left[op.key := e] else left
  {
    assert forall k | k in order :: k in items;
    hide Victim, IsOrder;
    var kept := Without(items, Victim(items, order, op.evictNow));
    var e := Entry(op.value, op.setNow + ttl);
    assert AfterSet(items, max, ttl, op.key, op.value, order, op.evictNow, op.setNow) == kept[op.key := e];
    assert op.key !in LivePart(kept, op.setNow);
    hide LivePart, Without, AfterSet, Live;
    LiveWith(kept, op.key, e, op.setNow);
    WithoutAbsent(LivePart(kept, op.setNow), op.key);
  }

  lemma SameWith<V>(a: Items<V>, b: Items<V>, key: string, e: Entry<V>)
    requires key !in a && key !in b
    ensures a[key := e] == b[key := e] <==> a == b
  {
    assert a[key := e] - {key} == a && b[key := e] - {key} == b;
  }

  lemma SameVictims<V>(items: Items<V>, now: int, seen: int, a: seq<string>, b: seq<string>)
    requires items != map[] && "" !in items && now <= seen && IsOrder(a, items.Keys) && IsOrder(b, items.Keys)
    requires SomeExpired(items, seen) || UniqueOldest(items)
    ensures Left(items, a, now, seen) == Left(items, b, now, seen)
  {
    VictimIsEvictable(items, a, now);
    VictimIsEvictable(items, b, now);
    hide Victim;
    EvictableSame(items, now, seen, Victim(items, a, now).value, Victim(items, b, now).value);
  }

  /** Two evictable entries are the same one, or both have expired by the time anybody can look. */
  lemma EvictableSame<V>(items: Items<V>, now: int, seen: int, a: string, b: string)
    requires now <= seen && Evictable(items, a, now) && Evictable(items, b, now)
    requires SomeExpired(items, seen) || UniqueOldest(items)
    ensures LivePart(items - {a}, seen) == LivePart(items - {b}, seen)
  {
    if SomeExpired(items, seen) {
      var k :| k in items && !Live(items[k], seen);
      assert !Live(items[a], seen) && !Live(items[b], seen);
      assert LivePart(items - {a}, seen) == LivePart(items, seen) == LivePart(items - {b}, seen);
    } else {
      assert Live(items[a], now) && Live(items[b], now);
      assert a == b;
    }
  }

  lemma TieIsVisible<V>(items: Items<V>, now: int, seen: int) returns (order: seq<string>, other: seq<string>)
    requires items != map[] && "" !in items && now <= seen
    requires !SomeExpired(items, seen) && !UniqueOldest(items)
    ensures IsOrder(order, items.Keys) && IsOrder(other, items.Keys)
    ensures Left(items, order, now, seen) != Left(items, other, now, seen)
  {
    var k := PickOldest(items);
    var j := TiedWith(items, k);
    order := EvictsOldest(items, now, seen, k);
    other := EvictsOldest(items, now, seen, j);
    LeavesOther(items, seen, j, k);
  }

  lemma EvictsOldest<V>(items: Items<V>, now: int, seen: int, k: string) returns (order: seq<string>)
    requires "" !in items && now <= seen && !SomeExpired(items, seen) && OldestEntry(items, k)
    ensures IsOrder(order, items.Keys) && Left(items, order, now, seen) == LivePart(items - {k}, seen)
  {
    forall j | j in items ensures Live(items[j], now) { assert Live(items[j], seen); }
    assert Evictable(items, k, now);
    order := EvictableIsVictim(items, k, now);
  }

  lemma TiedWith<V>(items: Items<V>, k: string) returns (j: string)
    requires OldestEntry(items, k) && !UniqueOldest(items)
    ensures OldestEntry(items, j) && j != k
  {
    j :| j in items && j != k && items[k].expiresAt >= items[j].expiresAt;
  }

  lemma LeavesOther<V>(items: Items<V>, now: int, j: string, k: string)
    requires j in items && k in items && j != k && !SomeExpired(items, now)
    ensures LivePart(items - {j}, now) != LivePart(items - {k}, now)
  {
    assert k in LivePart(items - {j}, now) && k !in LivePart(items - {k}, now);
  }

  /** Two entries written at the same clock reading: the same three operations, two different answers. */
  lemma TieChangesAnswers() returns (ops: seq<Op<bool>>, one: seq<Items<bool>>, two: seq<Items<bool>>)
    ensures Timed(ops) && |ops| == 3 && IsRun(2, 10, ops, one) && IsRun(2, 10, ops, two)
    ensures Find(one[3], "a", 0) != Find(two[3], "a", 0)
  {
    var e := Entry(true, 10);
    var a, b, c := Op.Set("a", true, 0, 0), Op.Set("b", true, 0, 0), Op.Set("c", true, 0, 0);
    var s1: Items<bool> := map["a" := e];
    var s2 := s1["b" := e];
    ops := [a, b, c];
    one := [map[], s1, s2, ThirdSet(e, "a")];
    two := [map[], s1, s2, ThirdSet(e, "b")];
    assert Timed(ops);
    hide *;
    FirstSet(e, "a");
    SecondSet(e, "a", "b");
    ThirdSetSteps(e, "a");
    ThirdSetSteps(e, "b");
    ThreeSteps(2, 10, a, b, c, one);
    ThreeSteps(2, 10, a, b, c, two);
    ThirdSetReads(e);
  }

  lemma FirstSet(e: Entry<bool>, k: string)
    requires e == Entry(true, 10)
    ensures Step(2, 10, map[], Op.Set(k, true, 0, 0), map[k := e])
  {
    PickSets(2, 10, map[], Op.Set(k, true, 0, 0), map[k := e], None);
  }

  lemma SecondSet(e: Entry<bool>, j: string, k: string)
    requires e == Entry(true, 10) && j != k && j != ""
    ensures Step(2, 10, map[j := e], Op.Set(k, true, 0, 0), map[j := e][k := e])
  {
    PickSets(2, 10, map[j := e], Op.Set(k, true, 0, 0), map[j := e][k := e], None);
  }

  lemma ThirdSetReads(e: Entry<bool>)
    requires e == Entry(true, 10)
    ensures Find(ThirdSet(e, "a"), "a", 0) != Find(ThirdSet(e, "b"), "a", 0)
  {
  }

  function ThirdSet(e: Entry<bool>, victim: string): Items<bool> {
    (map["a" := e]["b" := e] - {victim})["c" := e]
  }

  lemma ThirdSetSteps(e: Entry<bool>, victim: string)
    requires e == Entry(true, 10) && victim in {"a", "b"}
    ensures Step(2, 10, map["a" := e]["b" := e], Op.Set("c", true, 0, 0), ThirdSet(e, victim))
  {
    var full: Items<bool> := map["a" := e]["b" := e];
    assert |full.Keys| == |full| && full.Keys == {"a", "b"};
    assert "c" !in full && "" !in full;
    PickSets(2, 10, full, Op.Set("c", true, 0, 0), ThirdSet(e, victim), Some(victim));
  }

  lemma ThreeSteps<V>(max: int, ttl: int, a: Op<V>, b: Op<V>, c: Op<V>, states: seq<Items<V>>)
    requires |states| == 4 && states[0] == map[]
    requires Step(max, ttl, states[0], a, states[1]) && Step(max, ttl, states[1], b, states[2])
    requires Step(max, ttl, states[2], c, states[3])
    ensures IsRun(max, ttl, [a, b, c], states)
  {
  }

  /** No two `Set`s read the same time. */
  ghost predicate DistinctSets<V>(ops: seq<Op<V>>) {
    forall i, j | 0 <= i < j < |ops| && ops[i].Set? && ops[j].Set? :: ops[i].setNow < ops[j].setNow
  }

  /** The live map as a function of the operations alone. */
  ghost function LiveMap<V>(max: int, ttl: int, ops: seq<Op<V>>): Items<V>
    requires max >= 1
  {
    if ops == [] then map[]
    else
      var n := |ops| - 1;
      NextLive(max, ttl, LiveMap(max, ttl, ops[..n]), ops[n])
  }

  ghost function NextLive<V>(max: int, ttl: int, before: Items<V>, op: Op<V>): (live': Items<V>)
    requires max >= 1
    ensures LiveStep(max, ttl, before, op, live')
  {
    if !op.Set? then before
    else
      var live := LivePart(before, op.evictNow);
      var victim := if op.key !in live && |live| >= max then Some(PickOldest(live)) else None;
      assert victim.Some? ==> OldestEntry(live, PickOldest(live)) && victim.value == PickOldest(live);
      var live' := Without(live, victim)[op.key := Entry(op.value, op.setNow + ttl)];
      assert LiveSet(max, ttl, live, op, live', victim);
      live'
  }

  function SetsOf<V>(ops: seq<Op<V>>): seq<Op<V>> {
    if ops == [] then []
    else SetsOf(ops[..|ops| - 1]) + if ops[|ops| - 1].Set? then [ops[|ops| - 1]] else []
  }

  /** Reads and cleanups do not influence the live map. */
  lemma {:induction false} OnlySetsMatter<V>(max: int, ttl: int, ops: seq<Op<V>>)
    requires max >= 1
    ensures LiveMap(max, ttl, ops) == LiveMap(max, ttl, SetsOf(ops))
  {
    if ops != [] {
      var n := |ops| - 1;
      OnlySetsMatter(max, ttl, ops[..n]);
      if ops[n].Set? {
        assert SetsOf(ops)[..|SetsOf(ops)| - 1] == SetsOf(ops[..n]);
      } else {
        assert SetsOf(ops) == SetsOf(ops[..n]);
      }
    }
  }

  lemma {:induction false} LiveEntriesAreLatest<V>(max: int, ttl: int, ops: seq<Op<V>>, k: string)
    requires max >= 1 && k in LiveMap(max, ttl, ops)
    ensures FromLatestSet(ops, ttl, k, LiveMap(max, ttl, ops)[k])
  {
    if ops != [] {
      var n := |ops| - 1;
      assert ops == ops[..n] + [ops[n]];
      if ops[n].Set? && ops[n].key == k {
        LatestSetIsNew(ops[..n], ops[n], ttl);
      } else {
        LiveEntriesAreLatest(max, ttl, ops[..n], k);
        LatestSetExtends(ops[..n], ops[n], ttl, k, LiveMap(max, ttl, ops)[k]);
      }
    }
  }

  lemma LiveMapDistinct<V>(max: int, ttl: int, ops: seq<Op<V>>)
    requires max >= 1 && DistinctSets(ops)
    ensures Distinct(LiveMap(max, ttl, ops))
  {
    var live := LiveMap(max, ttl, ops);
    forall a, b | a in live && b in live && live[a].expiresAt == live[b].expiresAt ensures a == b {
      LiveEntriesAreLatest(max, ttl, ops, a);
      LiveEntriesAreLatest(max, ttl, ops, b);
      var i :| LatestSetAt(ops, i, a) && live[a] == Entry(ops[i].value, ops[i].setNow + ttl);
      var j :| LatestSetAt(ops, j, b) && live[b] == Entry(ops[j].value, ops[j].setNow + ttl);
      assert i == j;
    }
  }

  lemma LiveStepUnique<V>(max: int, ttl: int, live: Items<V>, op: Op<V>, x: Items<V>, y: Items<V>)
    requires Distinct(live) && LiveStep(max, ttl, live, op, x) && LiveStep(max, ttl, live, op, y)
    ensures x == y
  {
    if op.Set? {
      var now := LivePart(live, op.evictNow);
      var a :| LiveSet(max, ttl, now, op, x, a);
      var b :| LiveSet(max, ttl, now, op, y, b);
      if a.Some? {
        assert now[a.value].expiresAt == now[b.value].expiresAt;
      }
    }
  }

  lemma {:induction false} LiveRunIsLiveMap<V>(max: int, ttl: int, ops: seq<Op<V>>, lives: seq<Items<V>>)
    requires max >= 1 && DistinctSets(ops) && IsLiveRun(max, ttl, ops, lives)
    ensures lives[|ops|] == LiveMap(max, ttl, ops)
  {
    if ops != [] {
      var n := |ops| - 1;
      LiveRunIsLiveMap(max, ttl, ops[..n], lives[..n + 1]);
      LiveMapDistinct(max, ttl, ops[..n]);
      LiveStepUnique(max, ttl, lives[n], ops[n], lives[n + 1], LiveMap(max, ttl, ops));
    }
  }

  /**
   With distinct `Set` times, what a cache holds live depends on its `Set`s alone: not on iteration
   orders, not on which expired entries were evicted, not on whether or when cleanups ran.
  */
  lemma OnlySetsAreVisible<V>(max: int, ttl: int, opsA: seq<Op<V>>, a: seq<Items<V>>,
                              opsB: seq<Op<V>>, b: seq<Items<V>>, t: int)
    requires max >= 1 && Timed(opsA) && Timed(opsB) && DistinctSets(opsA) && DistinctSets(opsB)
    requires IsRun(max, ttl, opsA, a) && IsRun(max, ttl, opsB, b)
    requires SetsOf(opsA) == SetsOf(opsB)
    requires ClockAt(opsA, |opsA|) <= t && ClockAt(opsB, |opsB|) <= t
    ensures LivePart(a[|opsA|], t) == LivePart(b[|opsB|], t)
  {
    LivePartIsLiveMap(max, ttl, opsA, a, t);
    LivePartIsLiveMap(max, ttl, opsB, b, t);
    OnlySetsMatter(max, ttl, opsA);
    OnlySetsMatter(max, ttl, opsB);
  }

  lemma LivePartIsLiveMap<V>(max: int, ttl: int, ops: seq<Op<V>>, states: seq<Items<V>>, t: int)
    requires max >= 1 && Timed(ops) && DistinctSets(ops) && IsRun(max, ttl, ops, states)
    requires ClockAt(ops, |ops|) <= t
    ensures LivePart(states[|ops|], t) == LivePart(LiveMap(max, ttl, ops), t)
  {
    var lives := RunRefines(max, ttl, ops, states);
    LiveRunIsLiveMap(max, ttl, ops, lives);
    LaterLive(states[|ops|], ClockAt(ops, |ops|), t);
    LaterLive(lives[|ops|], ClockAt(ops, |ops|), t);
  }
}
