/**
 The two-level rate limiter (internal/middleware/ratelimit.go): a global bucket, one
 bucket per recently seen client in a bounded table, and a shared overflow bucket for
 clients that find the table full.
*/
module RateLimiter {
  import opened TokenBucket

  /** The table is swept at most once a minute (times are in seconds). */
  const CLEANUP_INTERVAL := 60.0

  datatype Visitor<B> = Visitor(limiter: B, lastSeen: real)

  /** The table without idle clients, when a sweep is due. */
  function Swept<B>(visitors: map<string, Visitor<B>>, nextCleanup: real, ttl: real, now: real): map<string,
                    Visitor<B>> {
    if now > nextCleanup then
      map ip | ip in visitors && now - visitors[ip].lastSeen <= ttl :: visitors[ip]
    else visitors
  }

  function NextCleanup(nextCleanup: real, now: real): real {
    if now > nextCleanup then now + CLEANUP_INTERVAL else nextCleanup
  }

  class RateLimiter {
    const global: Limiter
    const overflow: Limiter
    const perClientRps: real
    const clientBurst: nat
    const maxClients: int
    const clientTtl: real
    var visitors: map<string, Visitor<Limiter>>
    var nextCleanup: real

    /** No two places of the limiter share a bucket. */
    ghost predicate Valid()
      reads this
    {
      && global != overflow
      && (forall c | c in visitors :: visitors[c].limiter != global && visitors[c].limiter != overflow)
      && (forall c, d | c in visitors && d in visitors && visitors[c].limiter == visitors[d].limiter :: c == d)
    }

    constructor (globalRps: real, globalBurst: nat, perClientRps: real, perClientBurst: nat,
                 maxClients: int, clientTtl: real, now: real)
      ensures Valid() && fresh(global) && fresh(overflow)
      ensures global.bucket == Full(globalRps, globalBurst as real, now)
      ensures overflow.bucket == Full(perClientRps, perClientBurst as real, now)
      ensures visitors == map[] && nextCleanup == now + CLEANUP_INTERVAL
      ensures this.perClientRps == perClientRps && clientBurst == perClientBurst
      ensures this.maxClients == maxClients && this.clientTtl == clientTtl
    {
      global := new Limiter(globalRps, globalBurst as real, now);
      overflow := new Limiter(perClientRps, perClientBurst as real, now);
      this.perClientRps := perClientRps;
      clientBurst := perClientBurst;
      this.maxClients := maxClients;
      this.clientTtl := clientTtl;
      visitors := map[];
      nextCleanup := now + CLEANUP_INTERVAL;
    }

    /** The bucket that decides about a request of `key`; runs under the mutex. */
    method ClientLimiter(key: string, now: real) returns (limiter: Limiter)
      requires Valid()
      modifies this
      ensures Valid()
      ensures nextCleanup == NextCleanup(old(nextCleanup), now)
      ensures nextCleanup == if now > old(nextCleanup) then now + 60.0 else old(nextCleanup)
      ensures forall c | c in old(visitors) && c != key ::
                if now > old(nextCleanup) && now - old(visitors)[c].lastSeen > clientTtl then c !in visitors
                else c in visitors && visitors[c] == old(visitors)[c]
      ensures var kept := Swept(old(visitors), old(nextCleanup), clientTtl, now);
              if key in kept then
                limiter == kept[key].limiter && visitors == kept[key := Visitor(limiter, now)]
              else if |kept| >= maxClients then
                limiter == overflow && visitors == kept
              else
                && fresh(limiter) && limiter.bucket == Full(perClientRps, clientBurst as real, now)
                && visitors == kept[key := Visitor(limiter, now)]
    {
      if now > nextCleanup {
        Sweep(now);
        nextCleanup := now + CLEANUP_INTERVAL;
      }
      if key in visitors {
        limiter := visitors[key].limiter;
        visitors := visitors[key := Visitor(limiter, now)];
        return;
      }
      if |visitors| >= maxClients {
        return overflow;
      }
      limiter := new Limiter(perClientRps, clientBurst as real, now);
      visitors := visitors[key := Visitor(limiter, now)];
    }

    method Sweep(now: real)
      modifies this`visitors
      ensures visitors
           == map ip | ip in old(visitors) && now - old(visitors)[ip].lastSeen <= clientTtl :: old(visitors)[ip]
    {
      var todo := visitors.Keys;
      while todo != {}
        invariant todo <= visitors.Keys <= old(visitors).Keys
        invariant forall ip | ip in visitors :: visitors[ip] == old(visitors)[ip]
        invariant forall ip | ip in old(visitors) ::
                    ip in visitors <==> ip in todo || now - old(visitors)[ip].lastSeen <= clientTtl
      {
        var ip :| ip in todo;
        if now - visitors[ip].lastSeen > clientTtl {
          visitors := visitors - {ip};
        }
        todo := todo - {ip};
      }
    }

    /**
     One request, with its three clock readings: a request that the global bucket refuses
     never touches the client table; any other costs a global token even if its client is refused,
     and one bucket besides: its client's own, the overflow's or a new one.
    */
    method Handle(key: string, gateNow: real, tableNow: real, clientNow: real) returns (ok: bool)
      requires Valid()
      modifies this, global, overflow, set c | c in visitors :: visitors[c].limiter
      ensures Valid()
      ensures global.bucket == Take(old(global.bucket), gateNow)
      ensures forall c | c in old(visitors) && c != key ::
                old(visitors)[c].limiter.bucket == old(visitors[c].limiter.bucket)
      ensures !Admits(old(global.bucket), gateNow) ==>
                && !ok && visitors == old(visitors) && nextCleanup == old(nextCleanup)
                && overflow.bucket == old(overflow.bucket)
                && (key in visitors ==> visitors[key].limiter.bucket == old(visitors[key].limiter.bucket))
      ensures Admits(old(global.bucket), gateNow) ==>
                && nextCleanup == NextCleanup(old(nextCleanup), tableNow)
                && var kept := Swept(old(visitors), old(nextCleanup), clientTtl, tableNow);
                if key in kept then
                  && ok == Admits(old(kept[key].limiter.bucket), clientNow)
                  && kept[key].limiter.bucket == Take(old(kept[key].limiter.bucket), clientNow)
                  && visitors == kept[key := Visitor(kept[key].limiter, tableNow)]
                  && overflow.bucket == old(overflow.bucket)
                else if |kept| >= maxClients then
                  && ok == Admits(old(overflow.bucket), clientNow)
                  && overflow.bucket == Take(old(overflow.bucket), clientNow)
                  && visitors == kept
                else
                  && ok == Admits(Full(perClientRps, clientBurst as real, tableNow), clientNow)
                  && key in visitors && visitors == kept[key := Visitor(visitors[key].limiter, tableNow)]
                  && fresh(visitors[key].limiter)
                  && visitors[key].limiter.bucket == Take(Full(perClientRps, clientBurst as real, tableNow), clientNow)
                  && overflow.bucket == old(overflow.bucket)
    {
      ok := global.Allow(gateNow);
      if !ok {
        return;
      }
      var limiter := ClientLimiter(key, tableNow);
      ok := limiter.Allow(clientNow);
    }
  }
}
