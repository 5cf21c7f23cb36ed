/**
 The monthly provider quota: `TryConsumeEnrichmentQuota` in
 internal/repository/postgres/bin_repo.go and its use in internal/service/bin_service.go.
 A period is named by its provider and the UTC month in which the reservation is made.
*/
module Quota {

  datatype Period = Period(provider: string, month: int)

  type Usage = map<Period, nat>

  function Used(u: Usage, p: Period): nat { if p in u then u[p] else 0 }

  /** The one atomic statement: did it reserve, and the table after it. */
  function Consume(u: Usage, p: Period, limit: int): (bool, Usage) {
    if limit <= 0 then (false, u)
    else if p !in u then (true, u[p := 1])
    else if u[p] < limit then (true, u[p := u[p] + 1])
    else (false, u)
  }

  class Table {
    var usage: Usage

    method TryConsume(p: Period, limit: int) returns (reserved: bool)
      modifies this
      ensures (reserved, usage) == Consume(old(usage), p, limit)
      ensures reserved <==> Used(old(usage), p) < limit
      ensures usage == if reserved then old(usage)[p := Used(old(usage), p) + 1] else old(usage)
    {
      if limit <= 0 {
        return false;
      }
      if p !in usage {
        usage := usage[p := 1];
        return true;
      }
      if usage[p] < limit {
        usage := usage[p := usage[p] + 1];
        return true;
      }
      return false;
    }
  }

  // ----- reservations in any order, from any instance -----

  datatype Reservation = Reservation(period: Period, limit: int)

  function AfterAll(u: Usage, rs: seq<Reservation>): Usage {
    if rs == [] then u
    else Consume(AfterAll(u, rs[..|rs| - 1]), rs[|rs| - 1].period, rs[|rs| - 1].limit).1
  }

  function Attempts(rs: seq<Reservation>, p: Period): nat {
    if rs == [] then 0 else Attempts(rs[..|rs| - 1], p) + if rs[|rs| - 1].period == p then 1 else 0
  }

  function Granted(u: Usage, rs: seq<Reservation>, p: Period): nat {
    if rs == [] then 0
    else
      var before, r := rs[..|rs| - 1], rs[|rs| - 1];
      Granted(u, before, p) + if r.period == p && Consume(AfterAll(u, before), p, r.limit).0 then 1 else 0
  }

  function Min(a: int, b: int): int { if a <= b then a else b }

  /** Of `n` reservations in a period with limit L, exactly min(n, L - used) succeed, and the counter says so. */
  lemma {:induction false} GrantsExactly(u: Usage, rs: seq<Reservation>, p: Period, limit: nat)
    requires limit >= 1 && Used(u, p) <= limit
    requires forall i | 0 <= i < |rs| && rs[i].period == p :: rs[i].limit == limit
    ensures Granted(u, rs, p) == Min(Attempts(rs, p), limit - Used(u, p))
    ensures Used(AfterAll(u, rs), p) == Used(u, p) + Granted(u, rs, p)
  {
    if rs != [] {
      var n := |rs| - 1;
      GrantsExactly(u, rs[..n], p, limit);
      assert rs[n].period == p ==> rs[n].limit == limit;
    }
  }

  /** From an empty period: min(n, L). */
  lemma GrantsUpToLimit(u: Usage, rs: seq<Reservation>, p: Period, limit: nat)
    requires limit >= 1 && p !in u
    requires forall i | 0 <= i < |rs| && rs[i].period == p :: rs[i].limit == limit
    ensures Granted(u, rs, p) == Min(Attempts(rs, p), limit) == Used(AfterAll(u, rs), p)
  {
    GrantsExactly(u, rs, p, limit);
  }

  // ----- requests follow reservations -----

  /**
   Flights of any number of instances against one table. A reservation may be stored and
   still be reported as an error; an instance may crash between reserving and requesting.
  */
  datatype Step =
    | Reserve(flight: nat, period: Period, limit: int, reported: bool)
    | Request(flight: nat)
    | Drop(flight: nat)

  datatype World = World(usage: Usage, reserved: map<nat, Period>, sent: seq<Period>)

  function Next(w: World, step: Step): World {
    match step
    case Reserve(f, p, limit, reported) =>
      var (ok, usage) := Consume(w.usage, p, limit);
      w.(usage := usage, reserved := if ok && reported then w.reserved[f := p] else w.reserved)
    case Request(f) =>
      if f in w.reserved then w.(sent := w.sent + [w.reserved[f]], reserved := w.reserved - {f}) else w
    case Drop(f) => w.(reserved := w.reserved - {f})
  }

  /** A flight reserves only once at a time. */
  predicate CanHappen(w: World, step: Step) { step.Reserve? ==> step.flight !in w.reserved }

  function Run(steps: seq<Step>): World {
    if steps == [] then World(map[], map[], []) else Next(Run(steps[..|steps| - 1]), steps[|steps| - 1])
  }

  predicate Possible(steps: seq<Step>) {
    steps == [] || (Possible(steps[..|steps| - 1]) && CanHappen(Run(steps[..|steps| - 1]), steps[|steps| - 1]))
  }

  function SentIn(sent: seq<Period>, p: Period): nat {
    if sent == [] then 0 else SentIn(sent[..|sent| - 1], p) + if sent[|sent| - 1] == p then 1 else 0
  }

  ghost function ReservedIn(reserved: map<nat, Period>, p: Period): set<nat> {
    set f | f in reserved && reserved[f] == p
  }

  /** Each request and each open reservation is backed by one unit of the counter. */
  ghost predicate Backed(w: World, p: Period) {
    SentIn(w.sent, p) + |ReservedIn(w.reserved, p)| <= Used(w.usage, p)
  }

  lemma ReservedGrows(reserved: map<nat, Period>, f: nat, q: Period, p: Period)
    requires f !in reserved
    ensures |ReservedIn(reserved[f := q], p)| == |ReservedIn(reserved, p)| + if q == p then 1 else 0
  {
    var before, after := ReservedIn(reserved, p), ReservedIn(reserved[f := q], p);
    assert f !in before;
    assert forall g | g != f :: g in after <==> g in before;
    if q == p { assert after == before + {f}; } else { assert after == before; }
  }

  lemma ReservedShrinks(reserved: map<nat, Period>, f: nat, p: Period)
    ensures |ReservedIn(reserved - {f}, p)|
         == |ReservedIn(reserved, p)| - if f in reserved && reserved[f] == p then 1 else 0
  {
    var before, after := ReservedIn(reserved, p), ReservedIn(reserved - {f}, p);
    if f in reserved && reserved[f] == p { assert before == after + {f}; } else { assert before == after; }
  }

  lemma StaysBacked(w: World, step: Step, p: Period)
    requires Backed(w, p) && CanHappen(w, step)
    ensures Backed(Next(w, step), p)
  {
    match step
    case Reserve(f, q, _, _) => ReservedGrows(w.reserved, f, q, p);
    case Request(f) =>
      ReservedShrinks(w.reserved, f, p);
      if f in w.reserved {
        assert (w.sent + [w.reserved[f]])[..|w.sent|] == w.sent;
      }
    case Drop(f) => ReservedShrinks(w.reserved, f, p);
  }

  /** A reservation that is granted and confirmed is good for one request, and for no more. */
  lemma OneRequestPerReservation(w: World, flight: nat, p: Period, limit: int)
    requires Used(w.usage, p) < limit
    ensures var w1 := Next(w, Reserve(flight, p, limit, true));
            var w2 := Next(w1, Request(flight));
            && Used(w1.usage, p) == Used(w.usage, p) + 1 && flight in w1.reserved && w1.sent == w.sent
            && w2.sent == w.sent + [p] && flight !in w2.reserved
            && Next(w2, Request(flight)) == w2
  {
  }

  /** Over every history of crashes, lost replies and concurrent instances, a month's requests stay within the limit. */
  lemma {:induction false} RequestsWithinQuota(steps: seq<Step>, p: Period, limit: nat)
    requires Possible(steps)
    requires forall i | 0 <= i < |steps| && steps[i].Reserve? && steps[i].period == p :: steps[i].limit <= limit
    ensures Backed(Run(steps), p) && Used(Run(steps).usage, p) <= limit
    ensures SentIn(Run(steps).sent, p) <= limit
  {
    if steps == [] {
      assert ReservedIn(map[], p) == {};
    } else {
      var n := |steps| - 1;
      RequestsWithinQuota(steps[..n], p, limit);
      StaysBacked(Run(steps[..n]), steps[n], p);
    }
  }
}
