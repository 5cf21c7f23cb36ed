/**
 Embedded schema migrations (internal/database/migrate.go): loading and ordering the
 files, and applying each one together with its ledger row in one transaction.

 The checksum is a parameter of the loader; the schema is the list of executed files.
*/
module Migrations {
  import opened Wrappers
  import opened FileNames

  datatype Migration = Migration(version: int, name: string, contents: string, checksum: string)

  // ----- loading -----

  datatype FileEntry = FileEntry(name: string, isDir: bool, contents: string)

  datatype LoadError =
    | InvalidName(name: string)
    | InvalidVersion(name: string)
    | Duplicate(version: int, previous: string, name: string)

  predicate HasSuffix(s: string, suffix: string) {
    |s| >= |suffix| && s[|s| - |suffix|..] == suffix
  }

  predicate IsMigrationFile(e: FileEntry) { !e.isDir && HasSuffix(e.name, ".sql") }

  /** The version a file name stands for, or what is wrong with it. */
  function VersionOf(name: string): Result<int, LoadError> {
    var separator := IndexOf(name, '_');
    if separator <= 0 then Err(InvalidName(name))
    else
      match ParseInt64(name[..separator])
      case None => Err(InvalidVersion(name))
      case Some(v) => if v <= 0 then Err(InvalidVersion(name)) else Ok(v)
  }

  /** A file name of version `v`: its number, perhaps with a plus sign and leading zeros, an underscore, the rest. */
  ghost predicate Names(name: string, v: int, sign: string, k: nat, rest: string) {
    1 <= v <= MAX_INT64 && sign in {"", "+"} && name == sign + (Zeros(k) + Decimal(v)) + ['_'] + rest
  }

  /** Exactly these names have a version, and it is the number they begin with. */
  lemma VersionIff(name: string, v: int)
    ensures VersionOf(name) == Ok(v) <==> exists sign, k, rest :: Names(name, v, sign, k, rest)
  {
    hide Names, VersionOf;
    if VersionOf(name) == Ok(v) {
      var sign, k, rest := VersionNames(name, v);
    }
    if sign, k, rest :| Names(name, v, sign, k, rest) {
      NamedVersion(name, v, sign, k, rest);
    }
  }

  lemma VersionNames(name: string, v: int) returns (sign: string, k: nat, rest: string)
    requires VersionOf(name) == Ok(v)
    ensures Names(name, v, sign, k, rest)
  {
    hide ParseInt64, Zeros, Decimal, ParseDigits;
    var i := IndexOf(name, '_');
    FirstIndex(name, '_');
    hide IndexOf;
    rest := name[i + 1..];
    assert name == name[..i] + ['_'] + rest;
    var digits;
    sign, digits := PositiveInt(name[..i], v);
    k := ParsedDecimal(digits, v);
  }

  lemma NamedVersion(name: string, v: int, sign: string, k: nat, rest: string)
    requires Names(name, v, sign, k, rest)
    ensures VersionOf(name) == Ok(v)
  {
    hide ParseInt64, Zeros, Decimal, ParseDigits, IndexOf;
    var digits := Zeros(k) + Decimal(v);
    DecimalParses(k, v);
    IntOf(sign, digits, v);
    NoUnderscore(sign, digits);
    IndexIs(sign + digits, '_', rest);
    assert name[..|sign + digits|] == sign + digits;
  }

  /** Otherwise the name is refused: for having nothing before an underscore, or no version there. */
  lemma VersionErrors(name: string)
    ensures VersionOf(name) == Err(InvalidName(name)) <==> '_' !in name || name[0] == '_'
    ensures VersionOf(name).Ok? || VersionOf(name) in {Err(InvalidName(name)), Err(InvalidVersion(name))}
  {
    FirstIndex(name, '_');
    hide ParseInt64;
  }

  /** The first file of the repository. */
  lemma FirstMigrationName()
    ensures VersionOf("001_create_bins.sql") == Ok(1) && HasSuffix("001_create_bins.sql", ".sql")
  {
    assert Decimal(1) == "1" && Zeros(2) == "00";
    var name := "001_create_bins.sql";
    assert name == "" + (Zeros(2) + Decimal(1)) + ['_'] + "create_bins.sql";
    NamedVersion(name, 1, "", 2, "create_bins.sql");
  }

  /** `m` is the migration of the file `e`: its version, name and contents, and the checksum of the contents. */
  ghost predicate MigrationOf(e: FileEntry, sum: string -> string, m: Migration) {
    && !e.isDir && |e.name| >= 4 && e.name[|e.name| - 4..] == ".sql"
    && VersionOf(e.name) == Ok(m.version)
    && m.name == e.name && m.contents == e.contents && m.checksum == sum(e.contents)
  }

  function Parsed(e: FileEntry, sum: string -> string): Migration
    requires VersionOf(e.name).Ok?
  {
    Migration(VersionOf(e.name).value, e.name, e.contents, sum(e.contents))
  }

  /** Every migration file has a valid name, and no two share a version. */
  ghost predicate Loadable(entries: seq<FileEntry>) {
    && (forall i | 0 <= i < |entries| && IsMigrationFile(entries[i]) :: VersionOf(entries[i].name).Ok?)
    && (forall i, j | 0 <= i < j < |entries| && IsMigrationFile(entries[i]) && IsMigrationFile(entries[j]) ::
          VersionOf(entries[i].name) != VersionOf(entries[j].name))
  }

  /** One of the first `i` entries is the migration file `name` of version `v`. */
  ghost predicate NamedBefore(entries: seq<FileEntry>, i: nat, v: int, name: string) {
    exists j :: 0 <= j < i && j < |entries| && IsMigrationFile(entries[j])
                && VersionOf(entries[j].name) == Ok(v) && entries[j].name == name
  }

  /** Entry `i` is the first that cannot be loaded, and `error` says why. */
  ghost predicate FirstBad(entries: seq<FileEntry>, i: int, error: LoadError) {
    && 0 <= i < |entries| && Loadable(entries[..i]) && IsMigrationFile(entries[i])
    && match VersionOf(entries[i].name)
       case Err(e) => error == e
       case Ok(v) => error.Duplicate? && error.version == v && error.name == entries[i].name
                     && NamedBefore(entries, i, v, error.previous)
  }

  /** The migrations of the files, in directory order. */
  function Collected(entries: seq<FileEntry>, sum: string -> string): seq<Migration> {
    if entries == [] then []
    else
      var e := entries[|entries| - 1];
      Collected(entries[..|entries| - 1], sum)
      + if IsMigrationFile(e) && VersionOf(e.name).Ok? then [Parsed(e, sum)] else []
  }

  ghost predicate Ascending(ms: seq<Migration>) {
    forall i, j | 0 <= i < j < |ms| :: ms[i].version < ms[j].version
  }

  method Load(entries: seq<FileEntry>, sum: string -> string) returns (r: Result<seq<Migration>, LoadError>)
    ensures r.Ok? <==> Loadable(entries)
    ensures r.Ok? ==> Ascending(r.value) && multiset(r.value) == multiset(Collected(entries, sum))
    ensures r.Ok? ==> forall m :: m in r.value <==> exists e :: e in entries && MigrationOf(e, sum, m)
    ensures r.Err? ==> exists i :: FirstBad(entries, i, r.error)
  {
    hide Loadable, Collected, VersionOf, HasSuffix, FirstBad, NamedBefore, Ascending, HasVersion, DistinctVersions,
         MigrationOf;
    var ordered: seq<Migration> := [];
    var versions: map<int, string> := map[];
    NothingLoaded(entries, sum);
    for i := 0 to |entries|
      invariant Loaded(entries[..i], sum, ordered, versions.Keys)
      invariant forall v | v in versions :: NamedBefore(entries, i, v, versions[v])
    {
      var entry := entries[i];
      assert entries[..i + 1] == entries[..i] + [entry];
      NamedLater(entries, i, versions);
      if entry.isDir || !HasSuffix(entry.name, ".sql") {
        LoadedSkip(entries[..i], entry, sum, ordered, versions.Keys);
        continue;
      }
      var version := VersionOf(entry.name);
      if version.Err? {
        BadName(entries, i, version.error);
        return Err(version.error);
      }
      if version.value in versions {
        DuplicateVersion(entries, i, sum, ordered, versions.Keys);
        BadVersion(entries, i, version.value, versions[version.value]);
        return Err(Duplicate(version.value, versions[version.value], entry.name));
      }
      LoadedMore(entries[..i], entry, sum, ordered, versions.Keys);
      NamedNow(entries, i, version.value);
      versions := versions[version.value := entry.name];
      ordered := ordered + [Parsed(entry, sum)];
    }
    assert entries[..|entries|] == entries;
    var sorted := SortByVersion(ordered);
    forall m ensures m in sorted <==> exists e :: e in entries && MigrationOf(e, sum, m) {
      assert m in sorted <==> m in multiset(sorted);
      assert m in ordered <==> m in multiset(ordered);
      CollectedIff(entries, sum, m);
    }
    return Ok(sorted);
  }

  lemma {:induction false} CollectedIff(entries: seq<FileEntry>, sum: string -> string, m: Migration)
    ensures m in Collected(entries, sum) <==> exists e :: e in entries && MigrationOf(e, sum, m)
  {
    if entries != [] {
      var front, last := entries[..|entries| - 1], entries[|entries| - 1];
      assert entries == front + [last];
      CollectedIff(front, sum, m);
      ParsedIff(last, sum, m);
      hide MigrationOf, VersionOf, IsMigrationFile;
    }
  }

  lemma ParsedIff(e: FileEntry, sum: string -> string, m: Migration)
    ensures MigrationOf(e, sum, m) <==> IsMigrationFile(e) && VersionOf(e.name).Ok? && m == Parsed(e, sum)
  {
    hide VersionOf;
  }

  lemma NothingLoaded(entries: seq<FileEntry>, sum: string -> string)
    ensures Loaded(entries[..0], sum, [], {})
  {
  }

  lemma NamedLater(entries: seq<FileEntry>, i: nat, versions: map<int, string>)
    requires forall v | v in versions :: NamedBefore(entries, i, v, versions[v])
    ensures forall v | v in versions :: NamedBefore(entries, i + 1, v, versions[v])
  {
    hide VersionOf, HasSuffix;
  }

  lemma NamedNow(entries: seq<FileEntry>, i: nat, v: int)
    requires i < |entries| && IsMigrationFile(entries[i]) && VersionOf(entries[i].name) == Ok(v)
    ensures NamedBefore(entries, i + 1, v, entries[i].name)
  {
    hide VersionOf, HasSuffix;
  }

  lemma BadName(entries: seq<FileEntry>, i: nat, error: LoadError)
    requires i < |entries| && Loadable(entries[..i]) && IsMigrationFile(entries[i])
    requires VersionOf(entries[i].name) == Err(error)
    ensures FirstBad(entries, i, error) && !Loadable(entries)
  {
    hide VersionOf, HasSuffix;
  }

  lemma BadVersion(entries: seq<FileEntry>, i: nat, v: int, previous: string)
    requires i < |entries| && Loadable(entries[..i]) && IsMigrationFile(entries[i])
    requires VersionOf(entries[i].name) == Ok(v) && NamedBefore(entries, i, v, previous)
    ensures FirstBad(entries, i, Duplicate(v, previous, entries[i].name))
  {
    hide VersionOf, HasSuffix, NamedBefore;
  }

  /** The loop has read `entries`: nothing wrong so far, and `versions` are those of the files collected. */
  ghost predicate Loaded(entries: seq<FileEntry>, sum: string -> string, ordered: seq<Migration>, versions: set<int>) {
    && Loadable(entries) && ordered == Collected(entries, sum) && DistinctVersions(ordered)
    && (forall m | m in ordered :: m.version in versions)
    && (forall v :: v in versions <==> HasVersion(entries, v))
  }

  ghost predicate HasVersion(entries: seq<FileEntry>, v: int) {
    exists j :: 0 <= j < |entries| && IsMigrationFile(entries[j]) && VersionOf(entries[j].name) == Ok(v)
  }

  lemma HasVersionSnoc(entries: seq<FileEntry>, e: FileEntry, v: int)
    ensures HasVersion(entries + [e], v)
       <==> HasVersion(entries, v) || (IsMigrationFile(e) && VersionOf(e.name) == Ok(v))
  {
    var all := entries + [e];
    if HasVersion(entries, v) {
      var j :| 0 <= j < |entries| && IsMigrationFile(entries[j]) && VersionOf(entries[j].name) == Ok(v);
      assert all[j] == entries[j];
    }
    if IsMigrationFile(e) && VersionOf(e.name) == Ok(v) {
      assert all[|entries|] == e;
    }
  }

  lemma LoadedSkip(entries: seq<FileEntry>, e: FileEntry, sum: string -> string, ordered: seq<Migration>,
                   versions: set<int>)
    requires Loaded(entries, sum, ordered, versions) && !IsMigrationFile(e)
    ensures Loaded(entries + [e], sum, ordered, versions)
  {
    var all := entries + [e];
    assert all[..|all| - 1] == entries;
    assert forall j | 0 <= j < |entries| :: all[j] == entries[j];
    forall v ensures v in versions <==> HasVersion(all, v) { HasVersionSnoc(entries, e, v); }
  }

  lemma LoadedMore(entries: seq<FileEntry>, e: FileEntry, sum: string -> string, ordered: seq<Migration>,
                   versions: set<int>)
    requires Loaded(entries, sum, ordered, versions) && IsMigrationFile(e)
    requires VersionOf(e.name).Ok? && VersionOf(e.name).value !in versions
    ensures Loaded(entries + [e], sum, ordered + [Parsed(e, sum)], versions + {VersionOf(e.name).value})
  {
    var all := entries + [e];
    assert all[..|all| - 1] == entries;
    forall v ensures v in versions + {VersionOf(e.name).value} <==> HasVersion(all, v) {
      HasVersionSnoc(entries, e, v);
    }
    LoadableMore(entries, e, versions);
    forall i | 0 <= i < |ordered| ensures ordered[i].version != VersionOf(e.name).value {
      assert ordered[i] in ordered;
    }
  }

  lemma LoadableMore(entries: seq<FileEntry>, e: FileEntry, versions: set<int>)
    requires Loadable(entries) && VersionOf(e.name).Ok? && VersionOf(e.name).value !in versions
    requires forall v :: v in versions <==> HasVersion(entries, v)
    ensures Loadable(entries + [e])
  {
    forall i | 0 <= i < |entries| && IsMigrationFile(entries[i])
      ensures VersionOf(entries[i].name).Ok? && VersionOf(entries[i].name) != VersionOf(e.name)
    {
      assert HasVersion(entries, VersionOf(entries[i].name).value);
    }
  }

  lemma DuplicateVersion(entries: seq<FileEntry>, i: nat, sum: string -> string, ordered: seq<Migration>,
                         versions: set<int>)
    requires i < |entries| && Loaded(entries[..i], sum, ordered, versions)
    requires IsMigrationFile(entries[i]) && VersionOf(entries[i].name).Ok?
             && VersionOf(entries[i].name).value in versions
    ensures !Loadable(entries)
  {
    assert HasVersion(entries[..i], VersionOf(entries[i].name).value);
    var j :| 0 <= j < i && IsMigrationFile(entries[..i][j])
             && VersionOf(entries[..i][j].name) == VersionOf(entries[i].name);
    assert entries[j] == entries[..i][j];
  }

  ghost predicate DistinctVersions(ms: seq<Migration>) {
    forall i, j | 0 <= i < j < |ms| :: ms[i].version != ms[j].version
  }

  method SortByVersion(ms: seq<Migration>) returns (sorted: seq<Migration>)
    requires DistinctVersions(ms)
    ensures Ascending(sorted) && multiset(sorted) == multiset(ms)
  {
    sorted := [];
    for i := 0 to |ms|
      invariant Ascending(sorted) && multiset(sorted) == multiset(ms[..i])
    {
      assert ms[..i + 1] == ms[..i] + [ms[i]];
      forall m | m in sorted ensures m.version != ms[i].version {
        assert m in multiset(ms[..i]);
      }
      sorted := Insert(sorted, ms[i]);
    }
    assert ms[..|ms|] == ms;
  }

  method Insert(ms: seq<Migration>, x: Migration) returns (r: seq<Migration>)
    requires Ascending(ms) && forall m | m in ms :: m.version != x.version
    ensures Ascending(r) && multiset(r) == multiset(ms) + multiset{x}
  {
    var k := |ms|;
    while k > 0 && ms[k - 1].version > x.version
      invariant 0 <= k <= |ms|
      invariant forall j | k <= j < |ms| :: ms[j].version > x.version
    {
      k := k - 1;
    }
    assert k > 0 ==> ms[k - 1] in ms;
    InsertAscending(ms, k, x);
    r := ms[..k] + [x] + ms[k..];
  }

  lemma InsertAscending(ms: seq<Migration>, k: nat, x: Migration)
    requires Ascending(ms) && k <= |ms|
    requires k > 0 ==> ms[k - 1].version < x.version
    requires forall j | k <= j < |ms| :: ms[j].version > x.version
    ensures Ascending(ms[..k] + [x] + ms[k..])
    ensures multiset(ms[..k] + [x] + ms[k..]) == multiset(ms) + multiset{x}
  {
    InsertMultiset(ms, k, x);
    var r := ms[..k] + [x] + ms[k..];
    assert forall j | 0 <= j < k :: r[j] == ms[j];
    assert r[k] == x && |r| == |ms| + 1;
    assert forall j | k < j < |r| :: r[j] == ms[j - 1];
    if k > 0 {
      assert forall j | 0 <= j < k :: ms[j].version <= ms[k - 1].version;
    }
  }

  lemma InsertMultiset(ms: seq<Migration>, k: nat, x: Migration)
    requires k <= |ms|
    ensures multiset(ms[..k] + [x] + ms[k..]) == multiset(ms) + multiset{x}
  {
    assert ms == ms[..k] + ms[k..];
  }

  // ----- applying -----

  datatype Row = Row(name: string, checksum: string)

  /** `executed` is the list of files whose effects are in the schema. */
  datatype Database = Database(executed: seq<Migration>, ledger: map<int, Row>)

  const EMPTY := Database([], map[])

  /** What becomes of the transaction: it can fail at any step, or commit without the caller learning it. */
  datatype Fate = Commits | RollsBack | CommitsUnseen

  function Execute(db: Database, m: Migration): Database {
    Database(db.executed + [m], db.ledger[m.version := Row(m.name, m.checksum)])
  }

  /** One `applyMigration`: the database after it, and whether it returned nil. */
  function Apply(db: Database, m: Migration, fate: Fate): (Database, bool) {
    if m.version in db.ledger then
      (db, db.ledger[m.version].checksum == m.checksum && fate.Commits?)
    else
      match fate
      case Commits => (Execute(db, m), true)
      case RollsBack => (db, false)
      case CommitsUnseen => (Execute(db, m), false)
  }

  /** The loop of `Migrate` over the first `n` files: it stops at the first failure. */
  function MigrateFirst(db: Database, ms: seq<Migration>, fates: seq<Fate>, n: nat): (Database, bool)
    requires n <= |ms| == |fates|
  {
    if n == 0 then (db, true)
    else
      var before := MigrateFirst(db, ms, fates, n - 1);
      if before.1 then Apply(before.0, ms[n - 1], fates[n - 1]) else before
  }

  function Migrate(db: Database, ms: seq<Migration>, fates: seq<Fate>): (Database, bool)
    requires |ms| == |fates|
  {
    MigrateFirst(db, ms, fates, |ms|)
  }

  class Connection {
    var executed: seq<Migration>
    var ledger: map<int, Row>

    function Db(): Database
      reads this
    {
      Database(executed, ledger)
    }

    method ApplyMigration(m: Migration, fate: Fate) returns (ok: bool)
      modifies this
      ensures (Db(), ok) == Apply(old(Db()), m, fate)
      ensures m.version in old(ledger) ==>
                executed == old(executed) && ledger == old(ledger)
                && (ok <==> ledger[m.version].checksum == m.checksum && fate == Commits)
      ensures m.version !in old(ledger) ==>
                && (ok <==> fate == Commits)
                && (if fate == RollsBack then executed == old(executed) && ledger == old(ledger)
                    else executed == old(executed) + [m] && ledger == old(ledger)[m.version := Row(m.name, m.checksum)])
    {
      if m.version in ledger {
        if ledger[m.version].checksum != m.checksum {
          return false;
        }
        return fate == Commits;
      }
      if fate == RollsBack {
        return false;
      }
      executed := executed + [m];
      ledger := ledger[m.version := Row(m.name, m.checksum)];
      return fate == Commits;
    }

    method MigrateAll(ms: seq<Migration>, fates: seq<Fate>) returns (ok: bool)
      requires |ms| == |fates|
      modifies this
      ensures (Db(), ok) == Migrate(old(Db()), ms, fates)
    {
      for i := 0 to |ms|
        invariant (Db(), true) == MigrateFirst(old(Db()), ms, fates, i)
      {
        ok := ApplyMigration(ms[i], fates[i]);
        if !ok {
          StaysFailed(old(Db()), ms, fates, i + 1, |ms|);
          return;
        }
      }
      ok := true;
    }
  }

  lemma {:induction false} StaysFailed(db: Database, ms: seq<Migration>, fates: seq<Fate>, i: nat, n: nat)
    requires i <= n <= |ms| == |fates| && !MigrateFirst(db, ms, fates, i).1
    ensures MigrateFirst(db, ms, fates, n) == MigrateFirst(db, ms, fates, i)
  {
    if i < n {
      StaysFailed(db, ms, fates, i, n - 1);
    }
  }

  /** Effects and ledger agree: each recorded version was executed exactly once, with the recorded checksum. */
  ghost predicate Consistent(db: Database) {
    && DistinctVersions(db.executed)
    && (forall m | m in db.executed :: m.version in db.ledger && db.ledger[m.version] == Row(m.name, m.checksum))
    && (forall v | v in db.ledger :: exists m | m in db.executed :: m.version == v)
  }

  lemma ExecuteConsistent(db: Database, m: Migration)
    requires Consistent(db) && m.version !in db.ledger
    ensures Consistent(Execute(db, m))
  {
    var db' := Execute(db, m);
    forall i, j | 0 <= i < j < |db'.executed| ensures db'.executed[i].version != db'.executed[j].version {
      assert db'.executed[i] in db.executed;
    }
    forall v | v in db'.ledger ensures exists x | x in db'.executed :: x.version == v {
      if v == m.version {
        assert m in db'.executed;
      } else {
        var x :| x in db.executed && x.version == v;
        assert x in db'.executed;
      }
    }
  }

  /** Nothing recorded is ever changed or undone, and effects only accumulate. */
  ghost predicate Extends(before: Database, after: Database) {
    && before.executed <= after.executed
    && forall v | v in before.ledger :: v in after.ledger && after.ledger[v] == before.ledger[v]
  }

  ghost predicate Recorded(db: Database, m: Migration) {
    m.version in db.ledger && db.ledger[m.version].checksum == m.checksum
  }

  /**
   Any run, with any files and any failures, keeps effects and ledger in step and undoes nothing;
   if it returns nil, every file is recorded with its own checksum.
  */
  lemma {:induction false} RunKeepsLedger(db: Database, ms: seq<Migration>, fates: seq<Fate>, n: nat)
    requires Consistent(db) && n <= |ms| == |fates|
    ensures var (after, ok) := MigrateFirst(db, ms, fates, n);
            && Consistent(after) && Extends(db, after)
            && (ok ==> forall i | 0 <= i < n :: Recorded(after, ms[i]))
  {
    hide Apply, Consistent, Extends, Recorded;
    if n > 0 {
      RunKeepsLedger(db, ms, fates, n - 1);
      var mid := MigrateFirst(db, ms, fates, n - 1);
      if mid.1 {
        ApplyKeeps(mid.0, ms[n - 1], fates[n - 1]);
        var after := Apply(mid.0, ms[n - 1], fates[n - 1]).0;
        ExtendsOn(db, mid.0, after);
        forall i | 0 <= i < n - 1 ensures Recorded(after, ms[i]) {
          StaysRecorded(mid.0, after, ms[i]);
        }
      }
    } else {
      ExtendsItself(db);
    }
  }

  lemma ExtendsItself(db: Database)
    ensures Extends(db, db)
  {
  }

  lemma ExtendsOn(a: Database, b: Database, c: Database)
    requires Extends(a, b) && Extends(b, c)
    ensures Extends(a, c)
  {
  }

  lemma StaysRecorded(before: Database, after: Database, m: Migration)
    requires Extends(before, after) && Recorded(before, m)
    ensures Recorded(after, m)
  {
  }

  lemma ApplyKeeps(db: Database, m: Migration, fate: Fate)
    requires Consistent(db)
    ensures var (after, ok) := Apply(db, m, fate);
            && Consistent(after) && Extends(db, after)
            && (ok ==> Recorded(after, m))
  {
    if m.version !in db.ledger {
      ExecuteConsistent(db, m);
    }
  }

  /** A changed file stops the run: no version from it on is newly applied. */
  lemma {:induction false} MismatchStops(db: Database, ms: seq<Migration>, fates: seq<Fate>, k: nat, n: nat)
    requires Ascending(ms) && k < |ms| == |fates| && n <= |ms|
    requires ms[k].version in db.ledger && db.ledger[ms[k].version].checksum != ms[k].checksum
    ensures var (after, ok) := MigrateFirst(db, ms, fates, n);
            && (forall v | v in after.ledger && v !in db.ledger :: v < ms[k].version)
            && ms[k].version in after.ledger && after.ledger[ms[k].version] == db.ledger[ms[k].version]
            && (n > k ==> !ok)
  {
    if n > 0 {
      MismatchStops(db, ms, fates, k, n - 1);
    }
  }

  // ----- one file set, many runs -----

  /** The database that executed the first `k` files and nothing else. */
  ghost predicate AtPrefix(db: Database, ms: seq<Migration>, k: nat) {
    && k <= |ms| && db.executed == ms[..k]
    && (forall v | v in db.ledger :: exists i :: 0 <= i < k && ms[i].version == v)
    && (forall i | 0 <= i < k ::
          ms[i].version in db.ledger && db.ledger[ms[i].version] == Row(ms[i].name, ms[i].checksum))
  }

  lemma ApplyAtPrefix(db: Database, ms: seq<Migration>, k: nat, i: nat, fate: Fate)
    requires Ascending(ms) && AtPrefix(db, ms, k) && i <= k && i < |ms|
    ensures var (after, ok) := Apply(db, ms[i], fate);
            && (i < k ==> after == db)
            && (i == k ==> after == db || AtPrefix(after, ms, k + 1))
            && (ok ==> AtPrefix(after, ms, if i < k then k else k + 1))
  {
    if i == k {
      NextIsNew(db, ms, k);
      ExecuteAtPrefix(db, ms, k);
    }
  }

  lemma ExecuteAtPrefix(db: Database, ms: seq<Migration>, k: nat)
    requires Ascending(ms) && AtPrefix(db, ms, k) && k < |ms|
    ensures AtPrefix(Execute(db, ms[k]), ms, k + 1)
  {
    var after := Execute(db, ms[k]);
    assert ms[..k + 1] == ms[..k] + [ms[k]];
    forall v | v in after.ledger ensures exists i :: 0 <= i < k + 1 && ms[i].version == v {
      if v == ms[k].version {
      } else {
        var i :| 0 <= i < k && ms[i].version == v;
      }
    }
  }

  lemma {:induction false} RunAtPrefix(db: Database, ms: seq<Migration>, fates: seq<Fate>, k: nat, n: nat)
    returns (k': nat)
    requires Ascending(ms) && AtPrefix(db, ms, k) && n <= |ms| == |fates|
    ensures k' >= k && AtPrefix(MigrateFirst(db, ms, fates, n).0, ms, k')
    ensures MigrateFirst(db, ms, fates, n).1 ==> n <= k'
  {
    if n == 0 {
      k' := k;
    } else {
      k' := RunAtPrefix(db, ms, fates, k, n - 1);
      var (mid, ok) := MigrateFirst(db, ms, fates, n - 1);
      if ok {
        ApplyAtPrefix(mid, ms, k', n - 1, fates[n - 1]);
        if n - 1 == k' && Apply(mid, ms[n - 1], fates[n - 1]).0 != mid {
          k' := k' + 1;
        }
      }
    }
  }

  function AfterRuns(db: Database, ms: seq<Migration>, runs: seq<seq<Fate>>): Database
    requires forall i | 0 <= i < |runs| :: |runs[i]| == |ms|
  {
    if runs == [] then db else Migrate(AfterRuns(db, ms, runs[..|runs| - 1]), ms, runs[|runs| - 1]).0
  }

  lemma {:induction false} RunsAtPrefix(ms: seq<Migration>, runs: seq<seq<Fate>>) returns (k: nat)
    requires Ascending(ms) && forall i | 0 <= i < |runs| :: |runs[i]| == |ms|
    ensures AtPrefix(AfterRuns(EMPTY, ms, runs), ms, k)
  {
    if runs == [] {
      k := 0;
    } else {
      var n := |runs| - 1;
      k := RunsAtPrefix(ms, runs[..n]);
      k := RunAtPrefix(AfterRuns(EMPTY, ms, runs[..n]), ms, runs[n], k, |ms|);
    }
  }

  /**
   Crash and resume: after any number of interrupted runs, the first run that returns nil leaves
   exactly the database of one uninterrupted run, the files executed once each in ascending order.
  */
  lemma ResumesToUninterrupted(ms: seq<Migration>, runs: seq<seq<Fate>>, last: seq<Fate>, smooth: seq<Fate>)
    requires Ascending(ms) && forall i | 0 <= i < |runs| :: |runs[i]| == |ms|
    requires |last| == |smooth| == |ms| && forall i | 0 <= i < |ms| :: smooth[i] == Commits
    requires Migrate(AfterRuns(EMPTY, ms, runs), ms, last).1
    ensures Migrate(AfterRuns(EMPTY, ms, runs), ms, last).0 == Migrate(EMPTY, ms, smooth).0
    ensures Migrate(EMPTY, ms, smooth).0.executed == ms
  {
    var k := RunsAtPrefix(ms, runs);
    var a := RunAtPrefix(AfterRuns(EMPTY, ms, runs), ms, last, k, |ms|);
    assert AtPrefix(EMPTY, ms, 0);
    SmoothFrom(EMPTY, ms, smooth, 0, |ms|);
    var b := RunAtPrefix(EMPTY, ms, smooth, 0, |ms|);
    SamePrefix(Migrate(AfterRuns(EMPTY, ms, runs), ms, last).0, Migrate(EMPTY, ms, smooth).0, ms);
  }

  function Max(a: nat, b: nat): nat { if a <= b then b else a }

  /** With every transaction committing, a run over any prefix of the files succeeds and completes it. */
  lemma {:induction false} SmoothFrom(db: Database, ms: seq<Migration>, smooth: seq<Fate>, k: nat, n: nat)
    requires Ascending(ms) && AtPrefix(db, ms, k) && n <= |ms| == |smooth|
    requires forall i | 0 <= i < |ms| :: smooth[i] == Commits
    ensures MigrateFirst(db, ms, smooth, n).1 && AtPrefix(MigrateFirst(db, ms, smooth, n).0, ms, Max(k, n))
  {
    if n > 0 {
      SmoothFrom(db, ms, smooth, k, n - 1);
      assert smooth[n - 1] == Commits;
      hide AtPrefix, MigrateFirst, Ascending, Apply;
      OneMoreFile(db, ms, smooth, n);
      SmoothStep(MigrateFirst(db, ms, smooth, n - 1).0, ms, Max(k, n - 1), n - 1);
    }
  }

  lemma OneMoreFile(db: Database, ms: seq<Migration>, fates: seq<Fate>, n: nat)
    requires 0 < n <= |ms| == |fates| && MigrateFirst(db, ms, fates, n - 1).1
    ensures MigrateFirst(db, ms, fates, n) == Apply(MigrateFirst(db, ms, fates, n - 1).0, ms[n - 1], fates[n - 1])
  {
    hide Apply;
  }

  /** A recorded file is verified, the next one is executed; either way a commit is a success. */
  lemma SmoothStep(db: Database, ms: seq<Migration>, k: nat, i: nat)
    requires Ascending(ms) && AtPrefix(db, ms, k) && i <= k && i < |ms|
    ensures Apply(db, ms[i], Commits).1 && AtPrefix(Apply(db, ms[i], Commits).0, ms, Max(k, i + 1))
  {
    if i == k {
      NextIsNew(db, ms, k);
      ExecuteAtPrefix(db, ms, k);
    }
    hide Ascending;
  }

  /** Running again on a complete database succeeds and changes nothing. */
  lemma RerunSucceeds(db: Database, ms: seq<Migration>, smooth: seq<Fate>)
    requires Ascending(ms) && AtPrefix(db, ms, |ms|) && |ms| == |smooth|
    requires forall i | 0 <= i < |ms| :: smooth[i] == Commits
    ensures Migrate(db, ms, smooth) == (db, true)
  {
    hide AtPrefix, Ascending, MigrateFirst;
    SmoothFrom(db, ms, smooth, |ms|, |ms|);
    SamePrefix(Migrate(db, ms, smooth).0, db, ms);
  }

  /** After any number of interrupted runs, the next undisturbed one succeeds and completes the schema. */
  lemma NextRunSucceeds(ms: seq<Migration>, runs: seq<seq<Fate>>, smooth: seq<Fate>)
    requires Ascending(ms) && forall i | 0 <= i < |runs| :: |runs[i]| == |ms|
    requires |smooth| == |ms| && forall i | 0 <= i < |ms| :: smooth[i] == Commits
    ensures Migrate(AfterRuns(EMPTY, ms, runs), ms, smooth).1
    ensures Migrate(AfterRuns(EMPTY, ms, runs), ms, smooth).0.executed == ms
  {
    hide AtPrefix, Ascending, MigrateFirst;
    var k := RunsAtPrefix(ms, runs);
    SmoothFrom(AfterRuns(EMPTY, ms, runs), ms, smooth, k, |ms|);
    PrefixShort(AfterRuns(EMPTY, ms, runs), ms, k);
    var after := Migrate(AfterRuns(EMPTY, ms, runs), ms, smooth).0;
    SamePrefix(after, after, ms);
  }

  lemma PrefixShort(db: Database, ms: seq<Migration>, k: nat)
    requires AtPrefix(db, ms, k)
    ensures k <= |ms|
  {
  }

  lemma NextIsNew(db: Database, ms: seq<Migration>, k: nat)
    requires Ascending(ms) && AtPrefix(db, ms, k) && k < |ms|
    ensures ms[k].version !in db.ledger
  {
    assert forall j | 0 <= j < k :: ms[j].version < ms[k].version;
  }

  lemma SamePrefix(a: Database, b: Database, ms: seq<Migration>)
    requires AtPrefix(a, ms, |ms|) && AtPrefix(b, ms, |ms|)
    ensures a == b && a.executed == ms
  {
    forall v ensures v in a.ledger <==> v in b.ledger {
      if v in a.ledger { var i :| 0 <= i < |ms| && ms[i].version == v; }
      if v in b.ledger { var i :| 0 <= i < |ms| && ms[i].version == v; }
    }
    forall v | v in a.ledger ensures a.ledger[v] == b.ledger[v] {
      var i :| 0 <= i < |ms| && ms[i].version == v;
    }
  }

  // ----- concurrent instances -----

  /** Where an instance is; it holds the session lock while `Ready` or `Decided`. */
  datatype Stage = Idle | Ready(next: nat) | Decided(next: nat, found: Option<string>) | Done(ok: bool)

  datatype Cluster = Cluster(db: Database, lock: Option<nat>, stages: map<nat, Stage>)

  /** Statements of the instances in the order in which the database executes them. */
  datatype Step = Lock(i: nat) | Check(i: nat) | Finish(i: nat, fate: Fate) | Return(i: nat) | Crash(i: nat)

  function StageOf(c: Cluster, i: nat): Stage { if i in c.stages then c.stages[i] else Idle }

  predicate CanStep(c: Cluster, ms: seq<Migration>, step: Step) {
    match step
    case Lock(i) => c.lock.None? && StageOf(c, i).Idle?
    case Check(i) => StageOf(c, i).Ready? && StageOf(c, i).next < |ms|
    case Finish(i, _) => StageOf(c, i).Decided? && StageOf(c, i).next < |ms|
    case Return(i) => StageOf(c, i).Ready? && StageOf(c, i).next == |ms|
    case Crash(i) => true
  }

  /** The rest of the transaction after the ledger was read; recording a version twice violates the primary key. */
  function Finished(c: Cluster, m: Migration, i: nat, next: nat, found: Option<string>, fate: Fate): Cluster {
    var goOn, giveUp := c.stages[i := Ready(next + 1)], c.stages[i := Done(false)];
    if found.Some? then
      if found.value == m.checksum && fate.Commits? then c.(stages := goOn) else c.(lock := None, stages := giveUp)
    else if m.version in c.db.ledger then c.(lock := None, stages := giveUp)
    else
      match fate
      case Commits => c.(db := Execute(c.db, m), stages := goOn)
      case RollsBack => c.(lock := None, stages := giveUp)
      case CommitsUnseen => Cluster(Execute(c.db, m), None, giveUp)
  }

  function Next(c: Cluster, ms: seq<Migration>, step: Step): Cluster
    requires CanStep(c, ms, step)
  {
    match step
    case Lock(i) => c.(lock := Some(i), stages := c.stages[i := Ready(0)])
    case Check(i) =>
      var n := StageOf(c, i).next;
      var row := if ms[n].version in c.db.ledger then Some(c.db.ledger[ms[n].version].checksum) else None;
      c.(stages := c.stages[i := Decided(n, row)])
    case Finish(i, fate) =>
      var stage := StageOf(c, i);
      Finished(c, ms[stage.next], i, stage.next, stage.found, fate)
    case Return(i) => c.(lock := None, stages := c.stages[i := Done(true)])
    case Crash(i) => Cluster(c.db, if c.lock == Some(i) then None else c.lock, c.stages[i := Idle])
  }

  /** What the holder of the lock knows still holds, and everybody else is outside. */
  ghost predicate StageGood(c: Cluster, ms: seq<Migration>, i: nat) {
    var k := |c.db.executed|;
    match StageOf(c, i)
    case Idle => true
    case Done(ok) => ok ==> k == |ms|
    case Ready(n) => c.lock == Some(i) && n <= k
    case Decided(n, found) => c.lock == Some(i) && n <= k && n < |ms|
                              && found == if n < k then Some(ms[n].checksum) else None
  }

  ghost predicate ClusterInv(c: Cluster, ms: seq<Migration>) {
    && AtPrefix(c.db, ms, |c.db.executed|)
    && (forall i :: StageGood(c, ms, i))
    && (c.lock.Some? ==> StageOf(c, c.lock.value).Ready? || StageOf(c, c.lock.value).Decided?)
  }

  lemma NotYetRecorded(db: Database, ms: seq<Migration>, n: nat)
    requires Ascending(ms) && AtPrefix(db, ms, |db.executed|) && n < |ms|
    ensures ms[n].version in db.ledger <==> n < |db.executed|
  {
    if ms[n].version in db.ledger {
      var j :| 0 <= j < |db.executed| && ms[j].version == ms[n].version;
    }
  }

  /** The ledger row read under the lock is still right at commit time: no version is recorded twice. */
  lemma FinishInv(c: Cluster, ms: seq<Migration>, i: nat, fate: Fate)
    requires Ascending(ms) && ClusterInv(c, ms) && CanStep(c, ms, Finish(i, fate))
    ensures ClusterInv(Next(c, ms, Finish(i, fate)), ms)
  {
    var c' := Next(c, ms, Finish(i, fate));
    var n := StageOf(c, i).next;
    assert StageGood(c, ms, i);
    NotYetRecorded(c.db, ms, n);
    if c'.db != c.db {
      ExecuteAtPrefix(c.db, ms, n);
    }
    forall j ensures StageGood(c', ms, j) {
      assert StageGood(c, ms, j);
    }
  }

  lemma StepInv(c: Cluster, ms: seq<Migration>, step: Step)
    requires Ascending(ms) && ClusterInv(c, ms) && CanStep(c, ms, step)
    ensures ClusterInv(Next(c, ms, step), ms)
  {
    match step
    case Finish(i, fate) => FinishInv(c, ms, i, fate);
    case Check(i) =>
      assert StageGood(c, ms, i);
      NotYetRecorded(c.db, ms, StageOf(c, i).next);
      OthersGood(c, ms, step);
    case Return(i) =>
      assert StageGood(c, ms, i);
      OthersGood(c, ms, step);
    case Lock(i) => OthersGood(c, ms, step);
    case Crash(i) => OthersGood(c, ms, step);
  }

  lemma OthersGood(c: Cluster, ms: seq<Migration>, step: Step)
    requires ClusterInv(c, ms) && CanStep(c, ms, step) && !step.Finish?
    requires StageGood(Next(c, ms, step), ms, step.i)
    ensures forall j :: StageGood(Next(c, ms, step), ms, j)
  {
    forall j ensures StageGood(Next(c, ms, step), ms, j) {
      assert StageGood(c, ms, j) && StageGood(c, ms, step.i);
    }
  }

  // ----- progress of the lock holder -----

  /** A statement of the lock holder that does not fail moves it on: it reads, executes or verifies, and returns. */
  lemma HolderMovesOn(c: Cluster, ms: seq<Migration>, i: nat)
    requires Ascending(ms) && ClusterInv(c, ms)
    ensures CanStep(c, ms, Lock(i)) ==> StageOf(Next(c, ms, Lock(i)), i) == Ready(0)
    ensures CanStep(c, ms, Check(i)) ==>
              StageOf(Next(c, ms, Check(i)), i).Decided? && StageOf(Next(c, ms, Check(i)), i).next == StageOf(c, i).next
    ensures CanStep(c, ms, Return(i)) ==>
              StageOf(Next(c, ms, Return(i)), i) == Done(true) && Next(c, ms, Return(i)).lock.None?
    ensures CanStep(c, ms, Finish(i, Commits)) ==>
              StageOf(Next(c, ms, Finish(i, Commits)), i) == Ready(StageOf(c, i).next + 1)
  {
    if CanStep(c, ms, Finish(i, Commits)) {
      assert StageGood(c, ms, i);
      NotYetRecorded(c.db, ms, StageOf(c, i).next);
      if StageOf(c, i).next < |c.db.executed| {
        RecordedChecksum(c.db, ms, StageOf(c, i).next);
      }
    }
    hide ClusterInv, Ascending;
  }

  lemma RecordedChecksum(db: Database, ms: seq<Migration>, n: nat)
    requires AtPrefix(db, ms, |db.executed|) && n < |db.executed|
    ensures n < |ms| && ms[n].version in db.ledger && db.ledger[ms[n].version].checksum == ms[n].checksum
  {
  }

  /** The statements for the files from `n` on, and the return. */
  function Rest(ms: seq<Migration>, i: nat, n: nat): seq<Step>
    requires n <= |ms|
    decreases |ms| - n
  {
    if n == |ms| then [Return(i)] else [Check(i), Finish(i, Commits)] + Rest(ms, i, n + 1)
  }

  /** Executes `steps` one after the other; None if one of them cannot happen. */
  function Perform(c: Cluster, ms: seq<Migration>, steps: seq<Step>): Option<Cluster>
    decreases |steps|
  {
    if steps == [] then Some(c)
    else if CanStep(c, ms, steps[0]) then Perform(Next(c, ms, steps[0]), ms, steps[1..])
    else None
  }

  lemma {:induction false} RestSucceeds(c: Cluster, ms: seq<Migration>, i: nat, n: nat) returns (c': Cluster)
    requires Ascending(ms) && ClusterInv(c, ms) && n <= |ms| && StageOf(c, i) == Ready(n)
    ensures Perform(c, ms, Rest(ms, i, n)) == Some(c') && ClusterInv(c', ms)
    ensures StageOf(c', i) == Done(true) && c'.lock.None?
    decreases |ms| - n
  {
    if n == |ms| {
      assert CanStep(c, ms, Return(i));
      c' := Next(c, ms, Return(i));
      HolderMovesOn(c, ms, i);
      StepInv(c, ms, Return(i));
      hide Next, ClusterInv, Ascending, CanStep;
      PerformOne(c, ms, Return(i), []);
      assert [Return(i)] + [] == [Return(i)];
    } else {
      assert CanStep(c, ms, Check(i));
      HolderMovesOn(c, ms, i);
      StepInv(c, ms, Check(i));
      var c1 := Next(c, ms, Check(i));
      assert CanStep(c1, ms, Finish(i, Commits));
      hide Next, ClusterInv, Ascending, CanStep;
      HolderMovesOn(c1, ms, i);
      StepInv(c1, ms, Finish(i, Commits));
      var c2 := Next(c1, ms, Finish(i, Commits));
      c' := RestSucceeds(c2, ms, i, n + 1);
      var rest := Rest(ms, i, n + 1);
      PerformOne(c1, ms, Finish(i, Commits), rest);
      PerformOne(c, ms, Check(i), [Finish(i, Commits)] + rest);
      assert [Check(i), Finish(i, Commits)] + rest == [Check(i)] + ([Finish(i, Commits)] + rest);
    }
  }

  lemma PerformOne(c: Cluster, ms: seq<Migration>, step: Step, rest: seq<Step>)
    requires CanStep(c, ms, step)
    ensures Perform(c, ms, [step] + rest) == Perform(Next(c, ms, step), ms, rest)
  {
    hide CanStep, Next;
    assert ([step] + rest)[1..] == rest;
  }

  /** An instance that finds the lock free and whose statements all commit returns nil with the schema complete. */
  lemma InstanceSucceeds(c: Cluster, ms: seq<Migration>, i: nat) returns (c': Cluster)
    requires Ascending(ms) && ClusterInv(c, ms) && c.lock.None? && StageOf(c, i).Idle?
    ensures Perform(c, ms, [Lock(i)] + Rest(ms, i, 0)) == Some(c') && ClusterInv(c', ms)
    ensures StageOf(c', i) == Done(true) && c'.db.executed == ms && c'.lock.None?
  {
    assert CanStep(c, ms, Lock(i));
    HolderMovesOn(c, ms, i);
    StepInv(c, ms, Lock(i));
    PerformOne(c, ms, Lock(i), Rest(ms, i, 0));
    c' := RestSucceeds(Next(c, ms, Lock(i)), ms, i, 0);
    hide Next, CanStep, Perform, Rest, Ascending;
    assert StageGood(c', ms, i);
    hide StageGood;
    assert AtPrefix(c'.db, ms, |c'.db.executed|);
  }

  function Reached(ms: seq<Migration>, steps: seq<Step>): Option<Cluster> {
    if steps == [] then Some(Cluster(EMPTY, None, map[]))
    else
      match Reached(ms, steps[..|steps| - 1])
      case None => None
      case Some(c) => if CanStep(c, ms, steps[|steps| - 1]) then Some(Next(c, ms, steps[|steps| - 1])) else None
  }

  /**
   Any number of instances, crashing anywhere: the schema is always the first files in ascending
   order, once each, recorded with their checksums; it is complete once any instance returned nil.
  */
  lemma {:induction false} ConcurrentRuns(ms: seq<Migration>, steps: seq<Step>)
    requires Ascending(ms) && Reached(ms, steps).Some?
    ensures var c := Reached(ms, steps).value;
            && ClusterInv(c, ms)
            && ((exists i :: StageOf(c, i) == Done(true)) ==> c.db.executed == ms)
  {
    if steps == [] {
      assert ClusterInv(Cluster(EMPTY, None, map[]), ms);
    } else {
      ConcurrentRuns(ms, steps[..|steps| - 1]);
      StepInv(Reached(ms, steps[..|steps| - 1]).value, ms, steps[|steps| - 1]);
    }
    var c := Reached(ms, steps).value;
    if i :| StageOf(c, i) == Done(true) {
      assert StageGood(c, ms, i);
    }
  }
}
