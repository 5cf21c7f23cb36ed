/**
 The `bins` table (internal/repository/postgres/bin_repo.go): a map by unique BIN.
 Row ids and timestamps are not part of the contents.
*/
module Store {
  import opened Wrappers
  import opened Bins

  type Table = map<string, Bin>

  /** The exact row, else for eight digits the row of the six-digit prefix. */
  function GetByBin(t: Table, bin: string): Option<Bin> {
    if bin in t then Some(t[bin])
    else if |bin| == 8 && bin[..6] in t then Some(t[bin[..6]])
    else None
  }

  function Upserted(t: Table, b: Bin): Table { t[b.bin := b] }

  // ----- the lookup query -----

  predicate Matches(row: Bin, bin: string) { row.bin == bin || (|bin| == 8 && row.bin == bin[..6]) }

  /** An answer the query may give: one of the matching rows with the longest key, or nothing if no row matches. */
  ghost predicate QueryAnswers(rows: seq<Bin>, bin: string, r: Option<Bin>) {
    match r
    case None => forall row | row in rows :: !Matches(row, bin)
    case Some(b) =>
      b in rows && Matches(b, bin) && forall row | row in rows && Matches(row, bin) :: |row.bin| <= |b.bin|
  }

  /** `rows` lists the table; its keys are unique. */
  ghost predicate Lists(rows: seq<Bin>, t: Table) {
    && (forall row | row in rows :: row.bin in t && t[row.bin] == row)
    && (forall k | k in t :: t[k] in rows && t[k].bin == k)
  }

  /** Match on either key, order by length, take one: that is longest-prefix lookup, and it is a single answer. */
  lemma QueryIsLongestPrefix(rows: seq<Bin>, t: Table, bin: string, r: Option<Bin>)
    requires Lists(rows, t)
    ensures QueryAnswers(rows, bin, r) <==> r == GetByBin(t, bin)
  {
    if bin in t {
      assert Matches(t[bin], bin) && t[bin] in rows;
    } else if |bin| == 8 && bin[..6] in t {
      assert Matches(t[bin[..6]], bin) && t[bin[..6]] in rows;
    }
  }

  // ----- what every table satisfies -----

  ghost predicate TableGood(t: Table) {
    forall k | k in t :: t[k].bin == k && RowGood(t[k])
  }

  /** An upsert changes the answer for its own key, and for the eight-digit keys it is the only prefix of. */
  lemma UpsertChanges(t: Table, b: Bin, k: string)
    ensures GetByBin(Upserted(t, b), k)
         == if k == b.bin || (|k| == 8 && k[..6] == b.bin && k !in t) then Some(b) else GetByBin(t, k)
  {
  }
}
