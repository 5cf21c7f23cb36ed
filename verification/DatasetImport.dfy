/**
 Importing a dataset (cmd/importer/main.go, internal/repository/postgres/bin_repo.go):
 rows are parsed and staged in batches inside one transaction; the commit publishes the
 staged rows and deletes stale local ones.
*/
module DatasetImport {
  import opened Wrappers
  import opened Bins
  import opened Store

  // ----- what an import means -----

  /** The staged rows: later rows overwrite earlier ones of the same BIN. */
  function Staged(bins: seq<Bin>): Table {
    if bins == [] then map[] else Upserted(Staged(bins[..|bins| - 1]), bins[|bins| - 1])
  }

  ghost predicate Distinct(bins: seq<Bin>) {
    forall i, j | 0 <= i < j < |bins| :: bins[i].bin != bins[j].bin
  }

  /** The records of the rows, when all of them parse. */
  predicate AllParse(rows: seq<seq<string>>) { forall i | 0 <= i < |rows| :: RowOf(rows[i]).Ok? }

  function Records(rows: seq<seq<string>>): (bins: seq<Bin>)
    requires AllParse(rows)
    ensures |bins| == |rows| && forall i | 0 <= i < |rows| :: bins[i] == RowOf(rows[i]).value
  {
    seq(|rows|, i requires 0 <= i < |rows| => RowOf(rows[i]).value)
  }

  /** A dataset that can be imported: not empty, every row valid, no BIN twice. */
  ghost predicate Importable(rows: seq<seq<string>>) {
    rows != [] && AllParse(rows) && Distinct(Records(rows))
  }

  /** The table after a successful import: the staged rows, and the other rows that are not local. */
  function Publish(t0: Table, staged: Table): Table {
    (map k | k in t0 && k !in staged && t0[k].source != LOCAL :: t0[k]) + staged
  }

  /** The stale local rows an import deletes. */
  function Stale(t0: Table, staged: Table): set<string> {
    set k | k in t0 && k !in staged && t0[k].source == LOCAL
  }

  /** The two statements of the commit, on the transaction's own view. */
  function Merged(t: Table, staged: Table): Table { t + staged }

  function WithoutStale(t: Table, staged: Table): Table {
    map k | k in t && !(t[k].source == LOCAL && k !in staged) :: t[k]
  }

  lemma CommitPublishes(t: Table, staged: Table)
    ensures WithoutStale(Merged(t, staged), staged) == Publish(t, staged)
    ensures Stale(Merged(t, staged), staged) == Stale(t, staged)
  {
  }

  // ----- the repository -----

  datatype Audit = Succeeded(rowsRead: nat, imported: nat, deleted: nat) | FailedImport(rowsRead: nat)

  datatype Published = Published(imported: nat, deleted: nat)

  class Repository {
    var bins: Table
    var imports: seq<Audit>
    /** The open import transaction's staging table. */
    var stage: Table
    /** Database calls made so far, and the calls that fail. */
    var calls: nat
    const faults: set<nat>

    constructor (bins: Table, imports: seq<Audit>, faults: set<nat>)
      ensures this.bins == bins && this.imports == imports && this.faults == faults && calls == 0
    {
      this.bins := bins;
      this.imports := imports;
      this.faults := faults;
      stage := map[];
      calls := 0;
    }

    method Call() returns (ok: bool)
      modifies this`calls
      ensures faults == {} ==> ok
    {
      ok := calls !in faults;
      calls := calls + 1;
    }

    method Begin() returns (ok: bool)
      modifies this`calls, this`stage
      ensures faults == {} ==> ok
      ensures ok ==> stage == map[]
    {
      ok := Call();
      if ok {
        stage := map[];
      }
    }

    /** One multi-row upsert: it fails as a whole when the batch holds a BIN twice or a row that does not fit. */
    method Stage(batch: seq<Bin>) returns (ok: bool)
      modifies this`calls, this`stage
      ensures faults == {} ==>
                (ok <==> batch == [] || (Distinct(batch) && forall i | 0 <= i < |batch| :: Fits(batch[i])))
      ensures ok ==> Distinct(batch) && stage == old(stage) + Staged(batch)
    {
      if |batch| == 0 {
        assert stage + Staged(batch) == stage;
        return true;
      }
      ok := Call();
      if !ok {
        return;
      }
      hide Staged, Fits;
      assert batch[..0] == [] && Staged([]) == map[] by { NothingStaged(); }
      var t: Table := map[];
      for i := 0 to |batch|
        invariant stage == old(stage) && t == Staged(batch[..i]) && Distinct(batch[..i])
        invariant forall j | 0 <= j < i :: Fits(batch[j])
      {
        if batch[i].bin in t {
          ghost var j := StagedRow(batch[..i], batch[i].bin);
          assert batch[j].bin == batch[i].bin;
          return false;
        }
        if !Fits(batch[i]) {
          return false;
        }
        StagedSnoc(batch, i);
        t := Upserted(t, batch[i]);
      }
      assert batch[..|batch|] == batch;
      stage := stage + t;
    }

    /** Publishing, deleting and recording happen in the transaction: the table changes only if all of it commits. */
    method Commit(rowsRead: nat) returns (r: Option<Published>)
      modifies this`calls, this`bins, this`imports
      ensures faults == {} ==> (r.Some? <==> |stage| == rowsRead)
      ensures r.Some? ==>
                && |stage| == rowsRead
                && bins == Publish(old(bins), stage)
                && r.value == Published(rowsRead, |Stale(old(bins), stage)|)
                && imports == old(imports) + [Succeeded(rowsRead, r.value.imported, r.value.deleted)]
      ensures r.None? ==> bins == old(bins) && imports == old(imports)
    {
      hide Publish, Merged, WithoutStale, Stale;
      var ok := Call();
      if !ok || |stage| != rowsRead {
        return None;
      }
      ok := Call();
      if !ok {
        return None;
      }
      var view := Merged(bins, stage);
      ok := Call();
      if !ok {
        return None;
      }
      var deleted := |Stale(view, stage)|;
      view := WithoutStale(view, stage);
      CommitPublishes(bins, stage);
      ok := Call();
      if !ok {
        return None;
      }
      ok := Call();
      if !ok {
        return None;
      }
      bins := view;
      imports := imports + [Succeeded(rowsRead, rowsRead, deleted)];
      return Some(Published(rowsRead, deleted));
    }

    /** Discards everything staged; the table was never touched. */
    method Rollback()
      modifies this`calls, this`stage
      ensures stage == map[]
    {
      var _ := Call();
      stage := map[];
    }

    /** The failure is recorded outside the rolled-back transaction, if the database lets us. */
    method RecordFailure(rowsRead: nat)
      modifies this`calls, this`imports
      ensures imports == old(imports) || imports == old(imports) + [FailedImport(rowsRead)]
      ensures faults == {} ==> imports == old(imports) + [FailedImport(rowsRead)]
    {
      var ok := Call();
      if ok {
        imports := imports + [FailedImport(rowsRead)];
      }
    }

    /**
     The whole import. Success, failure and the published table are described without the batch
     size, and whatever fails, the table is untouched and at most one audit row is added.
    */
    method Import(rows: seq<seq<string>>, batchSize: nat) returns (r: Option<Published>)
      requires batchSize >= 1
      modifies this
      ensures faults == {} ==> (r.Some? <==> Importable(rows))
      ensures faults == {} ==>
                (r.Some? <==>
                   && rows != [] && (forall i | 0 <= i < |rows| :: RowOf(rows[i]).Ok?)
                   && forall i, j | 0 <= i < j < |rows| :: RowOf(rows[i]).value.bin != RowOf(rows[j]).value.bin)
      ensures r.Some? ==>
                && Importable(rows)
                && bins == Publish(old(bins), Staged(Records(rows)))
                && r.value == Published(|rows|, |Stale(old(bins), Staged(Records(rows)))|)
                && imports == old(imports) + [Succeeded(|rows|, r.value.imported, r.value.deleted)]
      ensures r.Some? ==> forall k :: RowImported(old(bins), rows, bins, k)
      ensures r.None? ==>
                && bins == old(bins)
                && (imports == old(imports)
                    || exists n: nat :: n <= |rows| && imports == old(imports) + [FailedImport(n)])
      ensures r.None? && faults == {} ==> exists n: nat :: n <= |rows| && imports == old(imports) + [FailedImport(n)]
    {
      var rowsRead := 0;
      var ok := Begin();
      if ok {
        r, rowsRead := Run(rows, batchSize);
        if r.None? {
          Rollback();
        }
      } else {
        r := None;
      }
      if r.None? {
        RecordFailure(rowsRead);
      } else {
        forall k ensures RowImported(old(bins), rows, bins, k) { EachRowImported(old(bins), rows, k); }
      }
      ImportableMeans(rows);
      hide Importable, AllParse, RowOf, Records, Publish, Stale;
    }

    /** The loop over the rows, and the commit. */
    method Run(rows: seq<seq<string>>, batchSize: nat) returns (r: Option<Published>, rowsRead: nat)
      requires batchSize >= 1 && stage == map[]
      modifies this
      ensures rowsRead <= |rows|
      ensures faults == {} ==> (r.Some? <==> Importable(rows))
      ensures r.Some? ==>
                && Importable(rows)
                && bins == Publish(old(bins), Staged(Records(rows)))
                && r.value == Published(|rows|, |Stale(old(bins), Staged(Records(rows)))|)
                && imports == old(imports) + [Succeeded(|rows|, r.value.imported, r.value.deleted)]
      ensures r.None? ==> bins == old(bins) && imports == old(imports)
    {
      var ok;
      ok, rowsRead := ReadAll(rows, batchSize);
      if !ok {
        return None, rowsRead;
      }
      StagedSize(Records(rows));
      r := Commit(rowsRead);
    }

    /** The loop over the rows: parse, collect, stage each full batch, then the last one. */
    method ReadAll(rows: seq<seq<string>>, batchSize: nat) returns (ok: bool, rowsRead: nat)
      requires batchSize >= 1 && stage == map[]
      modifies this`calls, this`stage
      ensures rowsRead <= |rows|
      ensures ok ==> rowsRead == |rows| && rows != [] && AllParse(rows) && stage == Staged(Records(rows))
      ensures !ok && faults == {} ==> !Importable(rows)
    {
      hide RowOf;
      var batch: seq<Bin> := [];
      rowsRead := 0;
      while rowsRead < |rows|
        invariant rowsRead <= |rows| && AllParse(rows[..rowsRead])
        invariant Progress(Records(rows[..rowsRead]), batch, stage)
        invariant |batch| < batchSize
      {
        var parsed := ParseRow(rows[rowsRead]);
        if parsed.Err? {
          return false, rowsRead;
        }
        ReadOne(rows, rowsRead, batch, stage);
        rowsRead := rowsRead + 1;
        batch := batch + [parsed.value];
        if |batch| == batchSize {
          ok := StageRead(rows, rowsRead, batch);
          if !ok {
            return false, rowsRead;
          }
          batch := [];
        }
      }
      if rowsRead == 0 {
        return false, 0;
      }
      ok := true;
      if |batch| > 0 {
        ok := StageRead(rows, rowsRead, batch);
      }
      AllRead(rows, stage);
    }

    /** Stages the batch that ends at row `n`; without a fault, failure means the rows read hold a BIN twice. */
    method StageRead(rows: seq<seq<string>>, n: nat, batch: seq<Bin>) returns (ok: bool)
      requires n <= |rows| && AllParse(rows[..n]) && Progress(Records(rows[..n]), batch, stage)
      modifies this`calls, this`stage
      ensures ok ==> Progress(Records(rows[..n]), [], stage)
      ensures !ok && faults == {} ==> !Importable(rows)
    {
      ghost var read := Records(rows[..n]);
      ghost var before := stage;
      ok := Stage(batch);
      if ok {
        StageDone(read, batch, before);
      } else if faults == {} {
        BatchGood(rows, n, batch);
      }
    }
  }

  /** What an import does to the row of `k`: a dataset row replaces it; otherwise it stays unless it is local. */
  ghost predicate RowImported(before: Table, rows: seq<seq<string>>, after: Table, k: string) {
    && (forall i | 0 <= i < |rows| && RowOf(rows[i]).Ok? && RowOf(rows[i]).value.bin == k ::
          k in after && after[k] == RowOf(rows[i]).value)
    && ((forall i | 0 <= i < |rows| && RowOf(rows[i]).Ok? :: RowOf(rows[i]).value.bin != k) ==>
          && (k in after <==> k in before && before[k].source != LOCAL)
          && (k in after ==> after[k] == before[k]))
  }

  lemma EachRowImported(t: Table, rows: seq<seq<string>>, k: string)
    requires Importable(rows)
    ensures RowImported(t, rows, Publish(t, Staged(Records(rows))), k)
  {
    hide RowOf;
    var staged := Staged(Records(rows));
    forall i | 0 <= i < |rows| && RowOf(rows[i]).value.bin == k
      ensures k in staged && staged[k] == RowOf(rows[i]).value
    {
      StagedHas(Records(rows), i);
      var j := StagedRow(Records(rows), k);
      assert Records(rows)[i].bin == Records(rows)[j].bin;
    }
    if k in staged {
      var j := StagedRow(Records(rows), k);
      assert RowOf(rows[j]).value.bin == k;
    }
  }

  lemma ImportableMeans(rows: seq<seq<string>>)
    ensures Importable(rows)
       <==> && rows != [] && (forall i | 0 <= i < |rows| :: RowOf(rows[i]).Ok?)
            && forall i, j | 0 <= i < j < |rows| :: RowOf(rows[i]).value.bin != RowOf(rows[j]).value.bin
  {
    hide RowOf;
  }

  /** Everything read is either staged or in the current batch. */
  ghost predicate Progress(read: seq<Bin>, batch: seq<Bin>, stage: Table) {
    && |batch| <= |read| && batch == read[|read| - |batch|..]
    && stage == Staged(read[..|read| - |batch|])
  }

  lemma NothingStaged()
    ensures Staged([]) == map[]
  {
  }

  lemma StagedSnoc(bins: seq<Bin>, i: nat)
    requires i < |bins|
    ensures Staged(bins[..i + 1]) == Upserted(Staged(bins[..i]), bins[i])
    ensures Distinct(bins[..i]) && bins[i].bin !in Staged(bins[..i]) ==> Distinct(bins[..i + 1])
  {
    assert bins[..i + 1][..i] == bins[..i];
    if Distinct(bins[..i]) && bins[i].bin !in Staged(bins[..i]) {
      forall j | 0 <= j < i ensures bins[j].bin != bins[i].bin {
        assert bins[..i][j] == bins[j];
        StagedHas(bins[..i], j);
      }
      assert forall j | 0 <= j < i :: bins[..i + 1][j] == bins[..i][j];
    }
  }

  lemma {:induction false} StagedHas(bins: seq<Bin>, j: nat)
    requires j < |bins|
    ensures bins[j].bin in Staged(bins)
  {
    if j < |bins| - 1 {
      StagedHas(bins[..|bins| - 1], j);
    }
  }

  lemma {:induction false} StagedRow(bins: seq<Bin>, k: string) returns (i: nat)
    requires k in Staged(bins)
    ensures i < |bins| && bins[i] == Staged(bins)[k] && bins[i].bin == k
  {
    var n := |bins| - 1;
    if bins[n].bin == k {
      i := n;
    } else {
      i := StagedRow(bins[..n], k);
    }
  }

  lemma {:induction false} StagedAppend(a: seq<Bin>, b: seq<Bin>)
    ensures Staged(a + b) == Staged(a) + Staged(b)
  {
    if b == [] {
      assert a + b == a;
    } else {
      var n := |b| - 1;
      StagedAppend(a, b[..n]);
      UpsertLast(Staged(a), Staged(b[..n]), b[n]);
      assert (a + b)[..|a + b| - 1] == a + b[..n] && (a + b)[|a + b| - 1] == b[n];
    }
  }

  lemma UpsertLast(a: Table, b: Table, x: Bin)
    ensures Upserted(a + b, x) == a + Upserted(b, x)
  {
  }

  /** Counting the staged rows detects every repeated BIN, whichever batches its rows were in. */
  lemma {:induction false} StagedSize(bins: seq<Bin>)
    ensures |Staged(bins)| <= |bins|
    ensures |Staged(bins)| == |bins| <==> Distinct(bins)
  {
    if bins != [] {
      var n := |bins| - 1;
      StagedSize(bins[..n]);
      UpsertSize(Staged(bins[..n]), bins[n]);
      assert bins[..n + 1] == bins;
      StagedSnoc(bins, n);
      if bins[n].bin in Staged(bins[..n]) {
        var i := StagedRow(bins[..n], bins[n].bin);
        assert bins[i].bin == bins[n].bin;
      }
      DistinctPrefix(bins, n);
    }
  }

  lemma DistinctPrefix(bins: seq<Bin>, n: nat)
    requires n <= |bins|
    ensures Distinct(bins) ==> Distinct(bins[..n])
  {
  }

  lemma UpsertSize(t: Table, b: Bin)
    ensures |Upserted(t, b)| == |t| + if b.bin in t then 0 else 1
  {
    var all := Upserted(t, b);
    assert all.Keys == t.Keys + {b.bin} && |all.Keys| == |all| && |t.Keys| == |t|;
  }

  lemma ReadOne(rows: seq<seq<string>>, n: nat, batch: seq<Bin>, stage: Table)
    requires n < |rows| && AllParse(rows[..n]) && RowOf(rows[n]).Ok?
    requires Progress(Records(rows[..n]), batch, stage)
    ensures AllParse(rows[..n + 1])
    ensures Progress(Records(rows[..n + 1]), batch + [RowOf(rows[n]).value], stage)
  {
    hide RowOf;
    assert AllParse(rows[..n + 1]) by {
      assert forall i | 0 <= i < n :: rows[..n + 1][i] == rows[..n][i];
    }
    var read, x := Records(rows[..n]), RowOf(rows[n]).value;
    assert Records(rows[..n + 1]) == read + [x] by {
      forall i | 0 <= i < n ensures Records(rows[..n + 1])[i] == read[i] {
        assert rows[..n + 1][i] == rows[..n][i];
      }
    }
    ProgressSnoc(read, x, batch, stage);
  }

  lemma ProgressSnoc(read: seq<Bin>, x: Bin, batch: seq<Bin>, stage: Table)
    requires Progress(read, batch, stage)
    ensures Progress(read + [x], batch + [x], stage)
  {
    assert (read + [x])[..|read| - |batch|] == read[..|read| - |batch|];
  }

  lemma AllRead(rows: seq<seq<string>>, stage: Table)
    ensures rows[..|rows|] == rows
    ensures AllParse(rows) && Progress(Records(rows), [], stage) ==> stage == Staged(Records(rows))
  {
    assert rows[..|rows|] == rows;
    if AllParse(rows) {
      assert Records(rows)[..|rows|] == Records(rows);
    }
  }

  lemma StageDone(read: seq<Bin>, batch: seq<Bin>, stage: Table)
    requires Progress(read, batch, stage)
    ensures Progress(read, [], stage + Staged(batch))
  {
    StagedAppend(read[..|read| - |batch|], batch);
    assert read[..|read| - |batch|] + batch == read;
    assert read[..|read|] == read;
  }

  /** A batch of an importable dataset can be staged. */
  lemma BatchGood(rows: seq<seq<string>>, n: nat, batch: seq<Bin>)
    requires n <= |rows| && AllParse(rows[..n])
    requires |batch| <= n && batch == Records(rows[..n])[n - |batch|..]
    ensures forall i | 0 <= i < |batch| :: Fits(batch[i])
    ensures Importable(rows) ==> Distinct(batch)
  {
    BatchFits(rows, n, batch);
    if Importable(rows) {
      hide RowOf, Fits;
      SameRecords(rows, n);
      assert batch == Records(rows)[n - |batch|..n];
    }
  }

  lemma BatchFits(rows: seq<seq<string>>, n: nat, batch: seq<Bin>)
    requires n <= |rows| && AllParse(rows[..n])
    requires |batch| <= n && batch == Records(rows[..n])[n - |batch|..]
    ensures forall i | 0 <= i < |batch| :: Fits(batch[i])
  {
    forall i | 0 <= i < |batch| ensures Fits(batch[i]) {
      ParsedRowGood(rows[..n][n - |batch| + i]);
    }
  }

  lemma SameRecords(rows: seq<seq<string>>, n: nat)
    requires n <= |rows| && AllParse(rows)
    ensures AllParse(rows[..n]) && Records(rows[..n]) == Records(rows)[..n]
  {
    hide RowOf;
    assert forall i | 0 <= i < n :: rows[..n][i] == rows[i];
  }

  // ----- properties of publishing -----

  ghost predicate AllLocal(t: Table) { forall k | k in t :: t[k].source == LOCAL }

  /** What staging a valid dataset gives: good, local rows under their own BINs. */
  lemma StagedGood(rows: seq<seq<string>>)
    requires AllParse(rows)
    ensures TableGood(Staged(Records(rows))) && AllLocal(Staged(Records(rows)))
  {
    var t := Staged(Records(rows));
    forall k | k in t ensures t[k].bin == k && RowGood(t[k]) && t[k].source == LOCAL {
      var i := StagedRow(Records(rows), k);
      ParsedRowGood(rows[i]);
    }
  }

  /** The published table depends only on the set of rows. */
  lemma OrderIrrelevant(a: seq<Bin>, b: seq<Bin>)
    requires Distinct(a) && Distinct(b) && forall x :: x in a <==> x in b
    ensures Staged(a) == Staged(b)
  {
    forall k | k in Staged(a) ensures k in Staged(b) && Staged(b)[k] == Staged(a)[k] { SameStagedRow(a, b, k); }
    forall k | k in Staged(b) ensures k in Staged(a) { SameStagedRow(b, a, k); }
  }

  lemma SameStagedRow(a: seq<Bin>, b: seq<Bin>, k: string)
    requires Distinct(b) && (forall x | x in a :: x in b) && k in Staged(a)
    ensures k in Staged(b) && Staged(b)[k] == Staged(a)[k]
  {
    var i := StagedRow(a, k);
    assert a[i] in b;
    var j :| 0 <= j < |b| && b[j] == a[i];
    StagedHas(b, j);
    var m := StagedRow(b, k);
    assert m == j;
  }

  /** Exactly the staged BINs are local afterwards, and exactly the other sources' unstaged rows survive. */
  lemma ExactPublish(t: Table, staged: Table, k: string)
    requires AllLocal(staged)
    ensures k in Publish(t, staged) && Publish(t, staged)[k].source == LOCAL <==> k in staged
    ensures k in staged ==> Publish(t, staged)[k] == staged[k]
    ensures k !in staged ==>
              (k in Publish(t, staged) <==> k in t && t[k].source != LOCAL)
              && (k in Publish(t, staged) ==> Publish(t, staged)[k] == t[k])
  {
  }

  /** Rows are conserved: new count == old count + rows added - rows deleted. */
  lemma Conservation(t: Table, staged: Table)
    ensures |Publish(t, staged)| + |Stale(t, staged)| == |t| + |staged.Keys - t.Keys|
  {
    var p, stale := Publish(t, staged).Keys, Stale(t, staged);
    PublishedKeys(t, staged);
    SumOfDisjoint(p, stale);
    SumOfDisjoint(t.Keys, staged.Keys - t.Keys);
    assert |p| == |Publish(t, staged)| && |t.Keys| == |t|;
  }

  lemma PublishedKeys(t: Table, staged: Table)
    ensures Publish(t, staged).Keys + Stale(t, staged) == t.Keys + (staged.Keys - t.Keys)
    ensures Publish(t, staged).Keys !! Stale(t, staged)
  {
    assert forall k :: k in Publish(t, staged) <==> k in staged || (k in t && t[k].source != LOCAL);
  }

  lemma SumOfDisjoint(a: set<string>, b: set<string>)
    requires a !! b
    ensures |a + b| == |a| + |b|
  {
  }

  /** Importing the same rows again deletes nothing and changes nothing. */
  lemma Idempotent(t: Table, staged: Table)
    requires AllLocal(staged)
    ensures Publish(Publish(t, staged), staged) == Publish(t, staged)
    ensures Stale(Publish(t, staged), staged) == {}
  {
  }

  /** A dataset replaces an earlier one completely. */
  lemma Replaces(t: Table, first: Table, second: Table)
    requires AllLocal(first) && AllLocal(second)
    ensures var t2 := Publish(Publish(t, first), second);
            forall k | k in t2 && t2[k].source == LOCAL :: k in second
    ensures forall k | k in t && t[k].source != LOCAL && k !in first && k !in second ::
              k in Publish(Publish(t, first), second) && Publish(Publish(t, first), second)[k] == t[k]
  {
  }

  // ----- every reachable table -----

  /** What can happen to the table: an import of some rows (or its rollback), or one enrichment row. */
  datatype Change =
    | Imported(rows: seq<seq<string>>)
    | RolledBack
    | Enriched(b: Bin)

  ghost predicate Allowed(c: Change) {
    match c
    case Imported(rows) => Importable(rows)
    case RolledBack => true
    case Enriched(b) =>
      && ValidEnrichment(b)
      && ((exists h :: b == FromHandy(b.bin, h)) || (exists r :: b == FromBinlist(b.bin, r)))
  }

  ghost function Changed(t: Table, c: Change): Table
    requires Allowed(c)
  {
    match c
    case Imported(rows) => Publish(t, Staged(Records(rows)))
    case RolledBack => t
    case Enriched(b) => Upserted(t, b)
  }

  ghost function ChangedBy(t: Table, cs: seq<Change>): Table
    requires forall c | c in cs :: Allowed(c)
  {
    if cs == [] then t else Changed(ChangedBy(t, cs[..|cs| - 1]), cs[|cs| - 1])
  }

  /** Every table the system can reach satisfies the key format, the column widths and the shape of local rows. */
  lemma {:induction false} ReachableTableGood(t: Table, cs: seq<Change>)
    requires TableGood(t) && forall c | c in cs :: Allowed(c)
    ensures TableGood(ChangedBy(t, cs))
  {
    if cs != [] {
      var n := |cs| - 1;
      ReachableTableGood(t, cs[..n]);
      assert Allowed(cs[n]);
      match cs[n]
      case Imported(rows) => StagedGood(rows);
      case RolledBack =>
      case Enriched(b) => EnrichedGood(b);
    }
  }

  lemma EnrichedGood(b: Bin)
    requires Allowed(Enriched(b))
    ensures RowGood(b) && b.source != LOCAL
  {
    var noH := HandyAnswer("", "", "", "", "", "");
    var noR := BinlistAnswer("", "", "", None, "", "", "", "", "", "", None, None);
    if h :| b == FromHandy(b.bin, h) {
      EnrichedRecordGood(b.bin, h, noR);
    } else {
      var r :| b == FromBinlist(b.bin, r);
      EnrichedRecordGood(b.bin, noH, r);
    }
  }
}
