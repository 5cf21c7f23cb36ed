/**
 A dataset import running against live enrichment (internal/repository/postgres/bin_repo.go,
 internal/service/bin_service.go). The import's statements are separate steps of one
 READ COMMITTED transaction; an enrichment upsert is one statement that commits by itself,
 and waits for the import if the import has written its row.
*/
module ImportRace {
  import opened Wrappers
  import opened Bins
  import opened Store
  import opened DatasetImport

  datatype Phase = NotMerged | MergeDone | DeleteDone | Committed | Aborted

  /**
   `writes` are the rows the import has written and locked (None: deleted). `early` are the
   upserts that took effect before the import ended, `late` those that took effect after.
  */
  datatype Race = Race(
    phase: Phase, committed: Table, writes: map<string, Option<Bin>>, waiting: seq<Bin>,
    early: seq<Bin>, late: seq<Bin>)

  datatype Event = Enrich(b: Bin) | Merge | Delete | Commit | Abort

  function Overlay(t: Table, writes: map<string, Option<Bin>>): Table {
    (map k | k in t && k !in writes :: t[k]) + (map k | k in writes && writes[k].Some? :: writes[k].value)
  }

  function UpsertAll(t: Table, bs: seq<Bin>): Table {
    if bs == [] then t else Upserted(UpsertAll(t, bs[..|bs| - 1]), bs[|bs| - 1])
  }

  predicate Ended(s: Race) { s.phase.Committed? || s.phase.Aborted? }

  function MergeWrites(staged: Table): map<string, Option<Bin>> { map k | k in staged :: Some(staged[k]) }

  function DeleteWrites(stale: set<string>): map<string, Option<Bin>> { map k | k in stale :: None }

  function Begin(t: Table): Race { Race(NotMerged, t, map[], [], [], []) }

  function Step(s: Race, staged: Table, ev: Event): Race {
    match ev
    case Enrich(b) =>
      if b.bin in s.writes then s.(waiting := s.waiting + [b])
      else if Ended(s) then s.(committed := Upserted(s.committed, b), late := s.late + [b])
      else s.(committed := Upserted(s.committed, b), early := s.early + [b])
    case Merge => if s.phase.NotMerged? then s.(phase := MergeDone, writes := MergeWrites(staged)) else s
    case Delete =>
      if s.phase.MergeDone? then
        s.(phase := DeleteDone, writes := s.writes + DeleteWrites(Stale(Overlay(s.committed, s.writes), staged)))
      else s
    case Commit =>
      if s.phase.DeleteDone? then
        Race(Committed, UpsertAll(Overlay(s.committed, s.writes), s.waiting), map[], [], s.early, s.waiting)
      else s
    case Abort =>
      if Ended(s) then s
      else Race(Aborted, UpsertAll(s.committed, s.waiting), map[], [], s.early, s.waiting)
  }

  function After(t: Table, staged: Table, evs: seq<Event>): Race {
    if evs == [] then Begin(t) else Step(After(t, staged, evs[..|evs| - 1]), staged, evs[|evs| - 1])
  }

  /** The service never writes `local` rows. */
  ghost predicate FromService(evs: seq<Event>) {
    forall i | 0 <= i < |evs| && evs[i].Enrich? :: evs[i].b.source != LOCAL
  }

  /** The serial execution the race is equivalent to: early upserts, then the import, then late ones. */
  function Serial(t: Table, staged: Table, s: Race): Table {
    var before := UpsertAll(t, s.early);
    match s.phase
    case Committed => UpsertAll(Publish(before, staged), s.late)
    case _ => UpsertAll(before, s.late)
  }

  ghost predicate Inv(t: Table, staged: Table, s: Race) {
    && s.committed == Serial(t, staged, s)
    && (!Ended(s) ==> s.late == [])
    && match s.phase
       case NotMerged => s.writes == map[] && s.waiting == []
       case MergeDone => s.writes == MergeWrites(staged)
       case DeleteDone => s.writes == MergeWrites(staged) + DeleteWrites(Stale(s.committed, staged))
       case _ => s.writes == map[] && s.waiting == []
  }

  lemma ViewAfterMerge(t: Table, staged: Table)
    ensures Overlay(t, MergeWrites(staged)) == Merged(t, staged)
  {
  }

  lemma ViewAfterDelete(t: Table, staged: Table)
    ensures Overlay(t, MergeWrites(staged) + DeleteWrites(Stale(t, staged))) == Publish(t, staged)
  {
  }

  /** An upsert the locks let through leaves the set of rows to delete as it was. */
  lemma StaleUnchanged(t: Table, staged: Table, b: Bin)
    requires b.source != LOCAL && b.bin !in staged && b.bin !in Stale(t, staged)
    ensures Stale(Upserted(t, b), staged) == Stale(t, staged)
  {
  }

  lemma UpsertSnoc(t: Table, bs: seq<Bin>, b: Bin)
    ensures UpsertAll(t, bs + [b]) == Upserted(UpsertAll(t, bs), b)
  {
    assert (bs + [b])[..|bs|] == bs;
  }

  lemma EnrichWaits(t: Table, staged: Table, s: Race, b: Bin)
    requires Inv(t, staged, s) && b.bin in s.writes
    ensures Inv(t, staged, Step(s, staged, Enrich(b)))
  {
    hide Publish, Stale, UpsertAll, Upserted, MergeWrites, DeleteWrites;
  }

  lemma EnrichAfterEnd(t: Table, staged: Table, s: Race, b: Bin)
    requires Inv(t, staged, s) && Ended(s) && b.bin !in s.writes
    ensures Inv(t, staged, Step(s, staged, Enrich(b)))
  {
    UpsertSnoc(UpsertAll(t, s.early), s.late, b);
    UpsertSnoc(Publish(UpsertAll(t, s.early), staged), s.late, b);
    hide Publish, Stale, UpsertAll, Upserted;
  }

  lemma EnrichBeforeEnd(t: Table, staged: Table, s: Race, b: Bin)
    requires Inv(t, staged, s) && b.source != LOCAL && !Ended(s) && b.bin !in s.writes
    ensures Inv(t, staged, Step(s, staged, Enrich(b)))
  {
    UpsertSnoc(t, s.early, b);
    NoUpserts(UpsertAll(t, s.early));
    NoUpserts(UpsertAll(t, s.early + [b]));
    if s.phase.DeleteDone? {
      assert b.bin !in MergeWrites(staged) && b.bin !in DeleteWrites(Stale(s.committed, staged));
      StaleUnchanged(s.committed, staged, b);
    }
    hide Publish, Stale, UpsertAll, Upserted, MergeWrites, DeleteWrites;
  }

  lemma NoUpserts(t: Table)
    ensures UpsertAll(t, []) == t
  {
  }

  lemma EnrichInv(t: Table, staged: Table, s: Race, b: Bin)
    requires Inv(t, staged, s) && b.source != LOCAL
    ensures Inv(t, staged, Step(s, staged, Enrich(b)))
  {
    hide *;
    if b.bin in s.writes {
      EnrichWaits(t, staged, s, b);
    } else if Ended(s) {
      EnrichAfterEnd(t, staged, s, b);
    } else {
      EnrichBeforeEnd(t, staged, s, b);
    }
  }

  lemma DeleteInv(t: Table, staged: Table, s: Race)
    requires Inv(t, staged, s)
    ensures Inv(t, staged, Step(s, staged, Delete))
  {
    if s.phase.MergeDone? {
      ViewAfterMerge(s.committed, staged);
      CommitPublishes(s.committed, staged);
    }
    hide Publish, Stale, UpsertAll, Upserted, MergeWrites, DeleteWrites, Overlay, Merged, WithoutStale;
  }

  lemma CommitInv(t: Table, staged: Table, s: Race)
    requires Inv(t, staged, s)
    ensures Inv(t, staged, Step(s, staged, Commit))
  {
    if s.phase.DeleteDone? {
      ViewAfterDelete(s.committed, staged);
    }
  }

  lemma AbortInv(t: Table, staged: Table, s: Race)
    requires Inv(t, staged, s)
    ensures Inv(t, staged, Step(s, staged, Abort))
  {
  }

  lemma StepInv(t: Table, staged: Table, s: Race, ev: Event)
    requires Inv(t, staged, s) && (ev.Enrich? ==> ev.b.source != LOCAL)
    ensures Inv(t, staged, Step(s, staged, ev))
  {
    match ev
    case Enrich(b) => EnrichInv(t, staged, s, b);
    case Merge =>
    case Delete => DeleteInv(t, staged, s);
    case Commit => CommitInv(t, staged, s);
    case Abort => AbortInv(t, staged, s);
  }

  lemma {:induction false} RunInv(t: Table, staged: Table, evs: seq<Event>)
    requires FromService(evs)
    ensures Inv(t, staged, After(t, staged, evs))
  {
    if evs != [] {
      var n := |evs| - 1;
      RunInv(t, staged, evs[..n]);
      StepInv(t, staged, After(t, staged, evs[..n]), evs[n]);
    }
  }

  /** The upserts of a run, and how a race accounts for each of them. */
  function Upserts(evs: seq<Event>): multiset<Bin> {
    if evs == [] then multiset{}
    else Upserts(evs[..|evs| - 1]) + if evs[|evs| - 1].Enrich? then multiset{evs[|evs| - 1].b} else multiset{}
  }

  ghost predicate Accounted(s: Race, upserts: multiset<Bin>) {
    && upserts == multiset(s.early) + multiset(s.late) + multiset(s.waiting)
    && (Ended(s) ==> s.writes == map[] && s.waiting == [])
    && (!Ended(s) ==> s.late == [])
  }

  lemma EnrichAccounts(s: Race, staged: Table, b: Bin, upserts: multiset<Bin>)
    requires Accounted(s, upserts)
    ensures Accounted(Step(s, staged, Enrich(b)), upserts + multiset{b})
  {
    hide UpsertAll, Upserted;
    if b.bin in s.writes {
      OneMore(s.waiting, b);
      Regroup(multiset(s.early), multiset(s.late), multiset(s.waiting), multiset{b});
    } else if Ended(s) {
      OneMore(s.late, b);
      Regroup(multiset(s.early), multiset(s.waiting), multiset(s.late), multiset{b});
    } else {
      OneMore(s.early, b);
      Regroup(multiset(s.late), multiset(s.waiting), multiset(s.early), multiset{b});
    }
  }

  lemma OneMore(bs: seq<Bin>, b: Bin)
    ensures multiset(bs + [b]) == multiset(bs) + multiset{b}
  {
  }

  lemma Regroup(x: multiset<Bin>, y: multiset<Bin>, z: multiset<Bin>, one: multiset<Bin>)
    ensures x + y + z + one == x + y + (z + one) == x + (z + one) + y == (z + one) + x + y
    ensures x + y + z == x + z + y == z + x + y
  {
  }

  lemma ImportAccounts(s: Race, staged: Table, ev: Event, upserts: multiset<Bin>)
    requires Accounted(s, upserts) && !ev.Enrich?
    ensures Accounted(Step(s, staged, ev), upserts)
  {
    hide UpsertAll, Upserted, Overlay, Stale, MergeWrites, DeleteWrites;
    if ev.Merge? {
    } else if ev.Delete? {
    } else if Ended(s) {
    } else {
      assert upserts == multiset(s.early) + multiset(s.waiting) + multiset([]);
    }
  }

  lemma StepAccounts(s: Race, staged: Table, ev: Event, upserts: multiset<Bin>)
    requires Accounted(s, upserts)
    ensures Accounted(Step(s, staged, ev), upserts + if ev.Enrich? then multiset{ev.b} else multiset{})
  {
    hide *;
    if ev.Enrich? {
      EnrichAccounts(s, staged, ev.b, upserts);
      assert ev == Enrich(ev.b);
    } else {
      ImportAccounts(s, staged, ev, upserts);
      assert upserts + multiset{} == upserts;
    }
  }

  lemma {:induction false} EveryUpsertCounts(t: Table, staged: Table, evs: seq<Event>)
    ensures Accounted(After(t, staged, evs), Upserts(evs))
  {
    if evs != [] {
      var n := |evs| - 1;
      EveryUpsertCounts(t, staged, evs[..n]);
      StepAccounts(After(t, staged, evs[..n]), staged, evs[n], Upserts(evs[..n]));
    }
  }

  /**
   However the upserts interleave with the import's statements, the outcome is that of a serial
   order of the import and all those upserts; an aborted import leaves no trace.
  */
  lemma Serialisable(t: Table, staged: Table, evs: seq<Event>)
    requires FromService(evs) && Ended(After(t, staged, evs))
    ensures var s := After(t, staged, evs);
            && s.committed == (if s.phase.Committed? then UpsertAll(Publish(UpsertAll(t, s.early), staged), s.late)
                               else UpsertAll(UpsertAll(t, s.early), s.late))
            && Upserts(evs) == multiset(s.early) + multiset(s.late)
  {
    RunInv(t, staged, evs);
    EveryUpsertCounts(t, staged, evs);
  }

  lemma {:induction false} UpsertedRow(t: Table, bs: seq<Bin>, k: string)
    ensures if exists i :: 0 <= i < |bs| && bs[i].bin == k
            then k in UpsertAll(t, bs) && UpsertAll(t, bs)[k] in bs && UpsertAll(t, bs)[k].bin == k
            else (k in UpsertAll(t, bs) <==> k in t) && (k in t ==> UpsertAll(t, bs)[k] == t[k])
  {
    if bs != [] {
      var n := |bs| - 1;
      assert bs == bs[..n] + [bs[n]];
      UpsertedRow(t, bs[..n], k);
    }
  }

  /** No enrichment of a BIN outside the dataset is lost: its row is one of those the service wrote for it. */
  lemma EnrichmentSurvives(t: Table, staged: Table, evs: seq<Event>, i: nat)
    requires FromService(evs) && Ended(After(t, staged, evs))
    requires i < |evs| && evs[i].Enrich? && evs[i].b.bin !in staged
    ensures var (k, final) := (evs[i].b.bin, After(t, staged, evs).committed);
            k in final && final[k].source != LOCAL && final[k].bin == k && final[k] in Upserts(evs)
  {
    var s, k := After(t, staged, evs), evs[i].b.bin;
    Serialisable(t, staged, evs);
    UpsertsHas(evs, i);
    UpsertedRow(t, s.early, k);
    var mid := UpsertAll(t, s.early);
    var base := if s.phase.Committed? then Publish(mid, staged) else mid;
    UpsertedRow(base, s.late, k);
    assert evs[i].b in s.early || evs[i].b in s.late;
    forall b | b in Upserts(evs) ensures b.source != LOCAL { NotLocal(evs, b); }
    if k in mid && mid[k] in s.early { assert mid[k] in Upserts(evs); }
    if s.committed[k] in s.late { assert s.committed[k] in Upserts(evs); }
  }

  lemma {:induction false} UpsertsHas(evs: seq<Event>, i: nat)
    requires i < |evs| && evs[i].Enrich?
    ensures evs[i].b in Upserts(evs)
  {
    if i < |evs| - 1 { UpsertsHas(evs[..|evs| - 1], i); }
  }

  lemma {:induction false} NotLocal(evs: seq<Event>, b: Bin)
    requires FromService(evs) && b in Upserts(evs)
    ensures b.source != LOCAL
  {
    var n := |evs| - 1;
    if !(evs[n].Enrich? && evs[n].b == b) { NotLocal(evs[..n], b); }
  }

  // ----- progress -----

  /** The statements of the import take effect one after the other. */
  lemma StatementsAdvance(s: Race, staged: Table)
    ensures s.phase.NotMerged? ==> Step(s, staged, Merge).phase.MergeDone?
    ensures s.phase.MergeDone? ==> Step(s, staged, Delete).phase.DeleteDone?
    ensures s.phase.DeleteDone? ==> Step(s, staged, Commit).phase.Committed?
    ensures !Ended(s) ==> Step(s, staged, Abort).phase.Aborted?
  {
    hide Overlay, UpsertAll, Stale;
  }

  /** Committing publishes the dataset over the table as it is by then, and then lets the waiting upserts in. */
  lemma CommitIsPublished(t: Table, staged: Table, evs: seq<Event>)
    requires FromService(evs) && After(t, staged, evs).phase.DeleteDone?
    ensures var (s, after) := (After(t, staged, evs), After(t, staged, evs + [Commit]));
            && after.phase.Committed?
            && after.committed == UpsertAll(Publish(s.committed, staged), s.waiting)
            && after.early == s.early && after.late == s.waiting
  {
    RunInv(t, staged, evs);
    var s := After(t, staged, evs);
    ViewAfterDelete(s.committed, staged);
    OneMoreEvent(t, staged, evs, Commit);
    hide UpsertAll, Overlay, Publish, Stale, MergeWrites, DeleteWrites, After;
  }

  /** Aborting before the end leaves the table as it is, and then lets the waiting upserts in. */
  lemma AbortIsDiscarded(t: Table, staged: Table, evs: seq<Event>)
    requires !Ended(After(t, staged, evs))
    ensures var (s, after) := (After(t, staged, evs), After(t, staged, evs + [Abort]));
            && after.phase.Aborted? && after.committed == UpsertAll(s.committed, s.waiting)
            && after.early == s.early && after.late == s.waiting
  {
    OneMoreEvent(t, staged, evs, Abort);
    hide UpsertAll, After;
  }

  lemma OneMoreEvent(t: Table, staged: Table, evs: seq<Event>, ev: Event)
    ensures After(t, staged, evs + [ev]) == Step(After(t, staged, evs), staged, ev)
  {
    hide Step;
    assert (evs + [ev])[..|evs|] == evs;
  }

  /** How many of the import's three statements have taken effect; an aborted import has none. */
  function StatementsDone(p: Phase): int {
    match p
    case NotMerged => 0
    case MergeDone => 1
    case DeleteDone => 2
    case Committed => 3
    case Aborted => -1
  }

  lemma StatementCounts(s: Race, staged: Table, ev: Event)
    requires ev != Abort && StatementsDone(s.phase) >= 0
    ensures StatementsDone(Step(s, staged, ev).phase) >= StatementsDone(s.phase)
    ensures ev.Merge? ==> StatementsDone(Step(s, staged, ev).phase) >= 1
    ensures ev.Delete? && StatementsDone(s.phase) >= 1 ==> StatementsDone(Step(s, staged, ev).phase) >= 2
    ensures ev.Commit? && StatementsDone(s.phase) >= 2 ==> StatementsDone(Step(s, staged, ev).phase) == 3
  {
    hide Overlay, UpsertAll, Stale, MergeWrites, DeleteWrites;
  }

  lemma {:induction false} StatementsStay(t: Table, staged: Table, evs: seq<Event>, m: nat, n: nat)
    requires m <= n <= |evs| && Abort !in evs && StatementsDone(After(t, staged, evs[..m]).phase) >= 0
    ensures StatementsDone(After(t, staged, evs[..n]).phase) >= StatementsDone(After(t, staged, evs[..m]).phase)
  {
    hide Step;
    if m < n {
      StatementsStay(t, staged, evs, m, n - 1);
      AfterPrefix(t, staged, evs, n - 1);
      StatementCounts(After(t, staged, evs[..n - 1]), staged, evs[n - 1]);
    }
  }

  lemma AfterPrefix(t: Table, staged: Table, evs: seq<Event>, i: nat)
    requires i < |evs|
    ensures After(t, staged, evs[..i + 1]) == Step(After(t, staged, evs[..i]), staged, evs[i])
  {
    hide Step;
    assert evs[..i + 1] == evs[..i] + [evs[i]];
    OneMoreEvent(t, staged, evs[..i], evs[i]);
  }

  lemma RunCommits(t: Table, staged: Table, evs: seq<Event>, i: nat, j: nat, k: nat)
    requires Abort !in evs
    requires i < j < k < |evs| && evs[i] == Merge && evs[j] == Delete && evs[k] == Commit
    ensures After(t, staged, evs).phase.Committed?
  {
    Started(t, staged, evs);
    hide Step, After;
    StatementsStay(t, staged, evs, 0, i);
    AfterPrefix(t, staged, evs, i);
    StatementCounts(After(t, staged, evs[..i]), staged, evs[i]);
    StatementsStay(t, staged, evs, i + 1, j);
    AfterPrefix(t, staged, evs, j);
    StatementCounts(After(t, staged, evs[..j]), staged, evs[j]);
    StatementsStay(t, staged, evs, j + 1, k);
    AfterPrefix(t, staged, evs, k);
    StatementCounts(After(t, staged, evs[..k]), staged, evs[k]);
    StatementsStay(t, staged, evs, k + 1, |evs|);
    assert evs[..|evs|] == evs;
  }

  lemma Started(t: Table, staged: Table, evs: seq<Event>)
    ensures StatementsDone(After(t, staged, evs[..0]).phase) == 0
  {
  }

  /**
   A run that holds the import's statements in order and no abort publishes the dataset, whatever upserts
   come in between: over the early upserts, and under the late ones.
  */
  lemma RunPublishes(t: Table, staged: Table, evs: seq<Event>, i: nat, j: nat, k: nat)
    requires FromService(evs) && Abort !in evs
    requires i < j < k < |evs| && evs[i] == Merge && evs[j] == Delete && evs[k] == Commit
    ensures var s := After(t, staged, evs);
            && s.phase.Committed?
            && s.committed == UpsertAll(Publish(UpsertAll(t, s.early), staged), s.late)
            && Upserts(evs) == multiset(s.early) + multiset(s.late)
  {
    hide After, UpsertAll, Publish, Upserts;
    RunCommits(t, staged, evs, i, j, k);
    Serialisable(t, staged, evs);
  }

  /** Without any upsert the outcome is the plain import. */
  lemma AloneItPublishes(t: Table, staged: Table)
    ensures After(t, staged, [Merge, Delete, Commit]).committed == Publish(t, staged)
  {
    var evs := [Merge, Delete, Commit];
    RunPublishes(t, staged, evs, 0, 1, 2);
    var s := After(t, staged, evs);
    hide After, Publish;
    NoneOf(evs);
    assert s.early == [] && s.late == [] by {
      assert |multiset(s.early)| == |s.early| && |multiset(s.late)| == |s.late|;
    }
    NoUpserts(t);
    NoUpserts(Publish(t, staged));
  }

  lemma {:induction false} NoneOf(evs: seq<Event>)
    requires forall i | 0 <= i < |evs| :: !evs[i].Enrich?
    ensures Upserts(evs) == multiset{}
  {
    if evs != [] {
      NoneOf(evs[..|evs| - 1]);
    }
  }

  /** A staged row is there after the commit, unless an upsert of the same BIN came after the import. */
  lemma StagedRowIsThere(t: Table, staged: Table, evs: seq<Event>, key: string)
    requires FromService(evs) && After(t, staged, evs).phase.Committed? && key in staged
    ensures var s := After(t, staged, evs);
            key in s.committed && (s.committed[key] == staged[key] || s.committed[key] in s.late)
  {
    hide Step, After, UpsertAll;
    Serialisable(t, staged, evs);
    var s := After(t, staged, evs);
    UpsertedRow(Publish(UpsertAll(t, s.early), staged), s.late, key);
  }
}
