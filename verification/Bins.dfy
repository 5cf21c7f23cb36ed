/**
 BIN records: the row type (internal/model/bin.go), the CSV row parser (cmd/importer/main.go)
 and the provider mappings with their validation (internal/service/bin_service.go).
*/
module Bins {
  import opened Wrappers
  import opened Validator
  import opened Text

  /** A Go float64, as far as coordinate validation looks at it. */
  datatype Float = NaN | Infinite | Finite(value: real)

  datatype Bin = Bin(
    bin: string, brand: string, kind: string, category: string,
    bankName: string, bankUrl: string, bankPhone: string,
    countryName: string, countryCode: string, countryCurrency: string,
    latitude: Option<Float>, longitude: Option<Float>, prepaid: Option<bool>, source: string)

  const LOCAL := "local"

  datatype BankInfo = BankInfo(name: string, url: string, phone: string)

  datatype CountryInfo = CountryInfo(
    name: string, code: string, currency: string, latitude: Option<Float>, longitude: Option<Float>)

  datatype Response = Response(
    bin: string, brand: string, kind: string, category: string, prepaid: Option<bool>,
    bank: BankInfo, country: CountryInfo)

  function ToResponse(b: Bin): Response {
    Response(b.bin, b.brand, b.kind, b.category, b.prepaid,
             BankInfo(b.bankName, b.bankUrl, b.bankPhone),
             CountryInfo(b.countryName, b.countryCode, b.countryCurrency, b.latitude, b.longitude))
  }

  // ----- what the tables accept -----

  predicate IsLetter(c: char) { 'A' <= c <= 'Z' || 'a' <= c <= 'z' }

  predicate CoordinateFits(v: Option<Float>, bound: real) {
    v.None? || (v.value.Finite? && -bound <= v.value.value <= bound)
  }

  /**
   The row satisfies the CHECK constraint and fits the column widths. The coordinate bounds are those of the
   provider validation; a DECIMAL(9,6) column would accept any value below 1000.
  */
  predicate Fits(b: Bin) {
    && ValidBin(b.bin)
    && |b.brand| <= 50 && |b.kind| <= 20 && |b.category| <= 50
    && |b.bankName| <= 200 && |b.bankUrl| <= 200 && |b.bankPhone| <= 100
    && |b.countryName| <= 100 && |b.countryCode| <= 3 && |b.countryCurrency| <= 10 && |b.source| <= 50
    && CoordinateFits(b.latitude, 90.0) && CoordinateFits(b.longitude, 180.0)
  }

  /** A local row leaves unknown what the dataset does not provide. */
  predicate LocalIsPlain(b: Bin) {
    b.source == LOCAL ==> b.prepaid.None? && b.latitude.None? && b.longitude.None?
  }

  predicate RowGood(b: Bin) { Fits(b) && LocalIsPlain(b) }

  // ----- dataset rows -----

  datatype RowError = WrongColumns | BadBin | BadCountry | TooLong

  /** Column and width of each length-checked field. */
  const FIELDS: seq<(nat, nat)> := [(1, 50), (2, 20), (3, 50), (4, 200), (5, 100), (6, 200), (9, 100)]

  predicate AsciiUpper(s: string, n: nat) { |s| == n && forall i | 0 <= i < |s| :: 'A' <= s[i] <= 'Z' }

  function RowRecord(row: seq<string>): Bin
    requires |row| == 10
  {
    Bin(Trim(row[0]), Lower(Trim(row[1])), Lower(Trim(row[2])), Lower(Trim(row[3])),
        Trim(row[4]), Trim(row[6]), Trim(row[5]),
        Trim(row[9]), Upper(Trim(row[7])), "", None, None, None, LOCAL)
  }

  /** The value of one CSV row. */
  function RowOf(row: seq<string>): Result<Bin, RowError> {
    if |row| != 10 then Err(WrongColumns)
    else if !ValidBin(Trim(row[0])) then Err(BadBin)
    else if Trim(row[7]) != "" && !AsciiUpper(Upper(Trim(row[7])), 2) then Err(BadCountry)
    else if exists k | 0 <= k < |FIELDS| :: |Trim(row[FIELDS[k].0])| > FIELDS[k].1 then Err(TooLong)
    else Ok(RowRecord(row))
  }

  method IsAsciiUpper(s: string, n: nat) returns (ok: bool)
    ensures ok == AsciiUpper(s, n)
    ensures ok <==> |s| == n && forall i | 0 <= i < |s| :: 'A' <= s[i] <= 'Z'
  {
    if |s| != n {
      return false;
    }
    for i := 0 to |s|
      invariant forall j | 0 <= j < i :: 'A' <= s[j] <= 'Z'
    {
      if s[i] < 'A' || s[i] > 'Z' {
        return false;
      }
    }
    return true;
  }

  method ParseRow(row: seq<string>) returns (r: Result<Bin, RowError>)
    ensures r == RowOf(row)
  {
    if |row| != 10 {
      return Err(WrongColumns);
    }
    var valid := IsValidBin(Trim(row[0]));
    if !valid {
      return Err(BadBin);
    }
    var countryCode := Upper(Trim(row[7]));
    if countryCode != "" {
      var ok := IsAsciiUpper(countryCode, 2);
      if !ok {
        return Err(BadCountry);
      }
    }
    for k := 0 to |FIELDS|
      invariant forall j | 0 <= j < k :: |Trim(row[FIELDS[j].0])| <= FIELDS[j].1
    {
      if |Trim(row[FIELDS[k].0])| > FIELDS[k].1 {
        return Err(TooLong);
      }
    }
    return Ok(RowRecord(row));
  }

  /** An accepted row fits the staging table, and is a plain local row. */
  lemma ParsedRowGood(row: seq<string>)
    requires RowOf(row).Ok?
    ensures RowGood(RowOf(row).value) && RowOf(row).value.source == LOCAL
  {
    assert |Trim(row[FIELDS[0].0])| <= 50;
    assert |Trim(row[FIELDS[1].0])| <= 20;
    assert |Trim(row[FIELDS[2].0])| <= 50;
    assert |Trim(row[FIELDS[3].0])| <= 200;
    assert |Trim(row[FIELDS[4].0])| <= 100;
    assert |Trim(row[FIELDS[5].0])| <= 200;
    assert |Trim(row[FIELDS[6].0])| <= 100;
  }

  // ----- provider answers -----

  datatype HandyAnswer = HandyAnswer(
    scheme: string, kind: string, issuer: string, cardTier: string, alpha2: string, countryName: string)

  datatype BinlistAnswer = BinlistAnswer(
    scheme: string, kind: string, brand: string, prepaid: Option<bool>,
    bankName: string, bankUrl: string, bankPhone: string,
    alpha2: string, countryName: string, currency: string, latitude: Option<Float>, longitude: Option<Float>)

  function FromBinlist(bin: string, r: BinlistAnswer): Bin {
    Bin(bin, Lower(Trim(r.scheme)), Lower(Trim(r.kind)), Lower(Trim(r.brand)),
        Trim(r.bankName), Trim(r.bankUrl), Trim(r.bankPhone),
        Trim(r.countryName), Upper(Trim(r.alpha2)), Upper(Trim(r.currency)),
        r.latitude, r.longitude, r.prepaid, "binlist_net")
  }

  function FromHandy(bin: string, r: HandyAnswer): Bin {
    Bin(bin, Lower(Trim(r.scheme)), Lower(Trim(r.kind)), Lower(Trim(r.cardTier)),
        Trim(r.issuer), "", "",
        Trim(r.countryName), Upper(Trim(r.alpha2)), "",
        None, None, None, "handy_api")
  }

  predicate AsciiAlpha(s: string, n: nat) { |s| == n && forall i | 0 <= i < |s| :: IsLetter(s[i]) }

  /** What the validation looks at: value and width of each length-checked field. */
  function Checked(b: Bin): seq<(string, nat)> {
    [(b.brand, 50), (b.kind, 20), (b.category, 50), (b.bankName, 200), (b.bankUrl, 200), (b.bankPhone, 100),
     (b.countryName, 100), (b.countryCurrency, 10)]
  }

  /** A provider record worth storing. */
  ghost predicate ValidEnrichment(b: Bin) {
    && ValidBin(b.bin)
    && (forall k | 0 <= k < |Checked(b)| :: |Trim(Checked(b)[k].0)| <= Checked(b)[k].1)
    && (Trim(b.countryCode) == "" || AsciiAlpha(Trim(b.countryCode), 2))
    && CoordinateFits(b.latitude, 90.0) && CoordinateFits(b.longitude, 180.0)
    && (Trim(b.brand) != "" || Trim(b.bankName) != "" || Trim(b.countryCode) != "")
  }

  method IsAsciiAlpha(s: string, n: nat) returns (ok: bool)
    ensures ok == AsciiAlpha(s, n)
    ensures ok <==> |s| == n && forall i | 0 <= i < |s| :: 'A' <= s[i] <= 'Z' || 'a' <= s[i] <= 'z'
  {
    if |s| != n {
      return false;
    }
    for i := 0 to |s|
      invariant forall j | 0 <= j < i :: IsLetter(s[j])
    {
      if (s[i] < 'A' || s[i] > 'Z') && (s[i] < 'a' || s[i] > 'z') {
        return false;
      }
    }
    return true;
  }

  method IsValidEnrichment(b: Bin) returns (ok: bool)
    ensures ok <==> ValidEnrichment(b)
  {
    var valid := IsValidBin(b.bin);
    if !valid {
      return false;
    }
    var fields := Checked(b);
    for k := 0 to |fields|
      invariant forall j | 0 <= j < k :: |Trim(fields[j].0)| <= fields[j].1
    {
      if |Trim(fields[k].0)| > fields[k].1 {
        return false;
      }
    }
    var code := Trim(b.countryCode);
    if code != "" {
      var alpha := IsAsciiAlpha(code, 2);
      if !alpha {
        return false;
      }
    }
    if !CoordinateFits(b.latitude, 90.0) || !CoordinateFits(b.longitude, 180.0) {
      return false;
    }
    return Trim(b.brand) != "" || Trim(b.bankName) != "" || Trim(b.countryCode) != "";
  }

  /** All text fields are already trimmed, so what was checked is what is stored. */
  ghost predicate AllTrimmed(b: Bin) {
    && Tidy(b.brand) && Tidy(b.kind) && Tidy(b.category) && Tidy(b.bankName) && Tidy(b.bankUrl)
    && Tidy(b.bankPhone) && Tidy(b.countryName) && Tidy(b.countryCurrency) && Tidy(b.countryCode)
  }

  ghost predicate Tidy(s: string) { Trim(s) == s }

  lemma TidyField(s: string)
    ensures Tidy(Trim(s)) && Tidy(Lower(Trim(s))) && Tidy(Upper(Trim(s)))
  {
    CaseKeepsTrim(s);
  }

  lemma BinlistTrimmed(bin: string, r: BinlistAnswer)
    ensures AllTrimmed(FromBinlist(bin, r))
  {
    hide Tidy;
    TidyField(r.scheme);
    TidyField(r.kind);
    TidyField(r.brand);
    TidyField(r.bankName);
    TidyField(r.bankUrl);
    TidyField(r.bankPhone);
    TidyField(r.countryName);
    TidyField(r.alpha2);
    TidyField(r.currency);
  }

  lemma HandyTrimmed(bin: string, r: HandyAnswer)
    ensures AllTrimmed(FromHandy(bin, r))
  {
    assert Tidy("");
    hide Tidy;
    TidyField(r.scheme);
    TidyField(r.kind);
    TidyField(r.cardTier);
    TidyField(r.issuer);
    TidyField(r.countryName);
    TidyField(r.alpha2);
  }

  /** A validated record whose fields are trimmed fits the table. */
  lemma ValidFits(b: Bin)
    requires ValidEnrichment(b) && AllTrimmed(b) && |b.source| <= 50
    ensures Fits(b)
  {
    var f := Checked(b);
    assert f[0] == (b.brand, 50) && f[1] == (b.kind, 20) && f[2] == (b.category, 50);
    assert f[3] == (b.bankName, 200) && f[4] == (b.bankUrl, 200) && f[5] == (b.bankPhone, 100);
    assert f[6] == (b.countryName, 100) && f[7] == (b.countryCurrency, 10);
  }

  /** Whatever a provider answers, a record that passes validation can be stored and is never `local`. */
  lemma EnrichedRecordGood(bin: string, handy: HandyAnswer, binlist: BinlistAnswer)
    ensures ValidEnrichment(FromHandy(bin, handy)) ==>
              RowGood(FromHandy(bin, handy)) && FromHandy(bin, handy).source != LOCAL
    ensures ValidEnrichment(FromBinlist(bin, binlist)) ==>
              RowGood(FromBinlist(bin, binlist)) && FromBinlist(bin, binlist).source != LOCAL
  {
    HandyTrimmed(bin, handy);
    BinlistTrimmed(bin, binlist);
    assert "handy_api"[0] == 'h' && "binlist_net"[0] == 'b' && LOCAL[0] == 'l';
    if ValidEnrichment(FromHandy(bin, handy)) { ValidFits(FromHandy(bin, handy)); }
    if ValidEnrichment(FromBinlist(bin, binlist)) { ValidFits(FromBinlist(bin, binlist)); }
  }
}
