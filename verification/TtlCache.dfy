/**
 The bounded in-memory TTL cache (pkg/cache/cache.go).

 Clock readings are integers. `Set` reads the clock twice, once to evict and
 once to stamp the new entry. Go iterates over a map in an arbitrary order, so
 the victim of an eviction is computed along an explicit order of the keys.
*/
module TtlCache {
  import opened Wrappers

  datatype Entry<V> = Entry(value: V, expiresAt: int)

  type Items<V> = map<string, Entry<V>>

  /** An entry is served up to and including its expiry instant. */
  predicate Live<V>(e: Entry<V>, now: int) { now <= e.expiresAt }

  function LivePart<V>(items: Items<V>, now: int): Items<V> {
    map k | k in items && Live(items[k], now) :: items[k]
  }

  /** What a read of `key` at `now` observes. */
  function Find<V>(items: Items<V>, key: string, now: int): Option<V> {
    if key in items && Live(items[key], now) then Some(items[key].value) else None
  }

  /** `order` lists each key of `keys` exactly once. */
  ghost predicate IsOrder(order: seq<string>, keys: set<string>) {
    && (forall k :: k in order <==> k in keys)
    && (forall i, j | 0 <= i < j < |order| :: order[i] != order[j])
  }

  /** The scan of `evictOne`: stopped at an expired key, or still holding a candidate (`""`: none yet). */
  datatype Scan = Expired(key: string) | Oldest(key: string)

  function ScanAlong<V>(items: Items<V>, order: seq<string>, now: int): (s: Scan)
    requires forall k | k in order :: k in items
    ensures s.key in order || s == Oldest("")
  {
    if order == [] then Oldest("")
    else
      var k := order[|order| - 1];
      match ScanAlong(items, order[..|order| - 1], now)
      case Expired(e) => Expired(e)
      case Oldest(o) =>
        if !Live(items[k], now) then Expired(k)
        else if o == "" || items[k].expiresAt < items[o].expiresAt then Oldest(k)
        else Oldest(o)
  }

  /** The key that an eviction removes, if any. */
  function Victim<V>(items: Items<V>, order: seq<string>, now: int): Option<string>
    requires forall k | k in order :: k in items
  {
    var s := ScanAlong(items, order, now);
    if s == Oldest("") then None else Some(s.key)
  }

  function Without<V>(items: Items<V>, victim: Option<string>): Items<V> {
    if victim.None? then items else items - {victim.value}
  }

  /** The items after `Set`, when eviction walks the map along `order`. */
  function AfterSet<V>(items: Items<V>, max: int, ttl: int, key: string, value: V,
                       order: seq<string>, evictNow: int, setNow: int): Items<V>
    requires forall k | k in order :: k in items
  {
    var kept := if key !in items && |items| >= max then Without(items, Victim(items, order, evictNow)) else items;
    kept[key := Entry(value, setNow + ttl)]
  }

  class Cache<V> {
    var items: Items<V>
    const ttl: int
    const maxEntries: int

    constructor (ttl: int, maxEntries: int)
      ensures items == map[]
      ensures this.ttl == ttl && this.maxEntries == if maxEntries < 1 then 1 else maxEntries
    {
      items := map[];
      this.ttl := ttl;
      this.maxEntries := if maxEntries < 1 then 1 else maxEntries;
    }

    method Set(key: string, value: V, evictNow: int, setNow: int)
      modifies this
      ensures exists order | IsOrder(order, old(items).Keys) ::
                items == AfterSet(old(items), maxEntries, ttl, key, value, order, evictNow, setNow)
      ensures key in items && items[key] == Entry(value, setNow + ttl)
      ensures forall k | k in items && k != key :: k in old(items) && items[k] == old(items)[k]
      ensures key in old(items) || |old(items)| < maxEntries ==> forall k | k in old(items) :: k in items
    {
      ghost var order := SomeOrder(items.Keys);
      if key !in items && |items| >= maxEntries {
        order := EvictOne(evictNow);
      }
      items := items[key := Entry(value, setNow + ttl)];
      assert IsOrder(order, old(items).Keys);
    }

    method EvictOne(now: int) returns (ghost order: seq<string>)
      modifies this
      ensures IsOrder(order, old(items).Keys)
      ensures items == Without(old(items), Victim(old(items), order, now))
    {
      var oldestKey := "";
      var oldestExpiry := 0;
      var todo := items.Keys;
      order := [];
      while todo != {}
        invariant items == old(items)
        invariant todo <= items.Keys && IsOrder(order, items.Keys - todo)
        invariant oldestKey != "" ==> oldestKey in items && oldestExpiry == items[oldestKey].expiresAt
        invariant ScanAlong(items, order, now) == Oldest(oldestKey)
      {
        var key :| key in todo;
        assert (order + [key])[..|order|] == order;
        if now > items[key].expiresAt {
          order := Finish(items, order, key, todo, now);
          items := items - {key};
          return;
        }
        if oldestKey == "" || items[key].expiresAt < oldestExpiry {
          oldestKey := key;
          oldestExpiry := items[key].expiresAt;
        }
        order := order + [key];
        todo := todo - {key};
      }
      if oldestKey != "" {
        items := items - {oldestKey};
      }
    }

    method Get(key: string, now: int) returns (value: Option<V>)
      ensures value == Find(items, key, now)
      ensures value.Some? <==> key in items && now <= items[key].expiresAt
      ensures value.Some? ==> value.value == items[key].value
    {
      if key !in items || now > items[key].expiresAt {
        return None;
      }
      return Some(items[key].value);
    }

    /** One tick of the background worker. */
    method Cleanup(now: int)
      modifies this
      ensures items == LivePart(old(items), now)
      ensures forall k :: k in items <==> k in old(items) && now <= old(items)[k].expiresAt
      ensures forall k | k in items :: items[k] == old(items)[k]
    {
      var todo := items.Keys;
      while todo != {}
        invariant todo <= items.Keys <= old(items).Keys
        invariant forall k | k in items :: items[k] == old(items)[k]
        invariant forall k | k in old(items) :: k in items <==> k in todo || Live(old(items)[k], now)
      {
        var key :| key in todo;
        if now > items[key].expiresAt {
          items := items - {key};
        }
        todo := todo - {key};
      }
    }
  }

  ghost function SomeOrder(keys: set<string>): (order: seq<string>)
    ensures IsOrder(order, keys)
    decreases keys
  {
    if keys == {} then [] else
      var k :| k in keys;
      assert keys == (keys - {k}) + {k};
      [k] + SomeOrder(keys - {k})
  }

  lemma AppendOrder(a: seq<string>, ka: set<string>, b: seq<string>, kb: set<string>)
    requires IsOrder(a, ka) && IsOrder(b, kb) && ka !! kb
    ensures IsOrder(a + b, ka + kb)
  {
    forall i, j | 0 <= i < j < |a + b| ensures (a + b)[i] != (a + b)[j] {
      if i < |a| <= j {
        assert a[i] in ka && b[j - |a|] in kb;
      }
    }
  }

  lemma {:induction false} StaysExpired<V>(items: Items<V>, order: seq<string>, tail: seq<string>, now: int)
    requires forall k | k in order + tail :: k in items
    requires forall k | k in order :: k in order + tail
    requires ScanAlong(items, order, now).Expired?
    ensures ScanAlong(items, order + tail, now) == ScanAlong(items, order, now)
  {
    if tail == [] {
      assert order + tail == order;
    } else {
      var n := |tail| - 1;
      assert (order + tail)[..|order + tail| - 1] == order + tail[..n];
      StaysExpired(items, order, tail[..n], now);
    }
  }

  /** An expired key ends the scan, whatever keys the rest of the order would have visited. */
  lemma Finish<V>(items: Items<V>, order: seq<string>, key: string, todo: set<string>, now: int)
    returns (full: seq<string>)
    requires key in todo && todo <= items.Keys && !Live(items[key], now)
    requires IsOrder(order, items.Keys - todo) && ScanAlong(items, order, now).Oldest?
    ensures IsOrder(full, items.Keys)
    ensures Victim(items, full, now) == Some(key)
  {
    var tail := SomeOrder(todo - {key});
    AppendOrder(order, items.Keys - todo, [key], {key});
    AppendOrder(order + [key], items.Keys - todo + {key}, tail, todo - {key});
    full := order + [key] + tail;
    assert items.Keys - todo + {key} + (todo - {key}) == items.Keys;
    assert (order + [key])[..|order|] == order;
    StaysExpired(items, order + [key], tail, now);
  }
}
