/**
 Field by field: which provider answers and dataset rows are accepted, in terms of what was received, and what
 becomes of each field on the way to the API (cmd/importer/main.go, internal/service/bin_service.go,
 internal/model/bin.go).
*/
module RecordFields {
  import opened Wrappers
  import opened Validator
  import opened Text
  import opened Bins

  // ----- case and trimming -----

  lemma UpperCode(s: string)
    ensures AsciiUpper(Upper(s), 2) <==> AsciiAlpha(s, 2)
    ensures AsciiAlpha(Upper(s), 2) <==> AsciiAlpha(s, 2)
  {
    assert |Upper(s)| == |s|;
    if |s| == 2 {
      assert Upper(s)[0] == UpperChar(s[0]) && Upper(s)[1] == UpperChar(s[1]);
    }
  }

  lemma Blank(s: string)
    ensures |Lower(s)| == |Upper(s)| == |s|
    ensures Lower(s) == "" <==> s == ""
    ensures Upper(s) == "" <==> s == ""
  {
  }

  // ----- providers -----

  /** For trimmed fields the validation says this. */
  ghost predicate ValidFields(b: Bin) {
    && ValidBin(b.bin)
    && |b.brand| <= 50 && |b.kind| <= 20 && |b.category| <= 50 && |b.bankName| <= 200
    && |b.bankUrl| <= 200 && |b.bankPhone| <= 100 && |b.countryName| <= 100 && |b.countryCurrency| <= 10
    && (b.countryCode == "" || AsciiAlpha(b.countryCode, 2))
    && CoordinateFits(b.latitude, 90.0) && CoordinateFits(b.longitude, 180.0)
    && (b.brand != "" || b.bankName != "" || b.countryCode != "")
  }

  lemma ValidTrimmed(b: Bin)
    requires AllTrimmed(b)
    ensures ValidEnrichment(b) <==> ValidFields(b)
  {
    var f := Checked(b);
    assert f[0] == (b.brand, 50) && f[1] == (b.kind, 20) && f[2] == (b.category, 50);
    assert f[3] == (b.bankName, 200) && f[4] == (b.bankUrl, 200) && f[5] == (b.bankPhone, 100);
    assert f[6] == (b.countryName, 100) && f[7] == (b.countryCurrency, 10);
    hide ValidBin, Trim;
  }

  /** A coordinate that is there is a finite number within its bounds. */
  ghost predicate OnGlobe(latitude: Option<Float>, longitude: Option<Float>) {
    && (latitude.Some? ==> latitude.value.Finite? && -90.0 <= latitude.value.value <= 90.0)
    && (longitude.Some? ==> longitude.value.Finite? && -180.0 <= longitude.value.value <= 180.0)
  }

  /** Which binlist answers are worth storing. */
  lemma BinlistValidIff(bin: string, r: BinlistAnswer)
    ensures ValidEnrichment(FromBinlist(bin, r))
       <==> && (|bin| == 6 || |bin| == 8) && (forall i | 0 <= i < |bin| :: '0' <= bin[i] <= '9')
            && |Trim(r.scheme)| <= 50 && |Trim(r.kind)| <= 20 && |Trim(r.brand)| <= 50
            && |Trim(r.bankName)| <= 200 && |Trim(r.bankUrl)| <= 200 && |Trim(r.bankPhone)| <= 100
            && |Trim(r.countryName)| <= 100 && |Trim(r.currency)| <= 10
            && (Trim(r.alpha2) == "" || AsciiAlpha(Trim(r.alpha2), 2))
            && OnGlobe(r.latitude, r.longitude)
            && !(Trim(r.scheme) == "" && Trim(r.bankName) == "" && Trim(r.alpha2) == "")
  {
    BinlistTrimmed(bin, r);
    ValidTrimmed(FromBinlist(bin, r));
    hide Trim, ValidEnrichment, AllTrimmed;
    Blank(Trim(r.scheme));
    Blank(Trim(r.kind));
    Blank(Trim(r.brand));
    Blank(Trim(r.currency));
    Blank(Trim(r.alpha2));
    UpperCode(Trim(r.alpha2));
    hide AsciiAlpha, Lower, Upper;
  }

  /** Which Handy answers are worth storing. */
  lemma HandyValidIff(bin: string, r: HandyAnswer)
    ensures ValidEnrichment(FromHandy(bin, r))
       <==> && (|bin| == 6 || |bin| == 8) && (forall i | 0 <= i < |bin| :: '0' <= bin[i] <= '9')
            && |Trim(r.scheme)| <= 50 && |Trim(r.kind)| <= 20 && |Trim(r.cardTier)| <= 50
            && |Trim(r.issuer)| <= 200 && |Trim(r.countryName)| <= 100
            && (Trim(r.alpha2) == "" || AsciiAlpha(Trim(r.alpha2), 2))
            && !(Trim(r.scheme) == "" && Trim(r.issuer) == "" && Trim(r.alpha2) == "")
  {
    HandyTrimmed(bin, r);
    ValidTrimmed(FromHandy(bin, r));
    hide Trim, ValidEnrichment, AllTrimmed;
    Blank(Trim(r.scheme));
    Blank(Trim(r.kind));
    Blank(Trim(r.cardTier));
    Blank(Trim(r.alpha2));
    UpperCode(Trim(r.alpha2));
    hide AsciiAlpha, Lower, Upper;
  }

  /** What the API shows of a binlist answer: the scheme is the brand, and the card's brand is its category. */
  lemma BinlistShown(bin: string, r: BinlistAnswer)
    ensures FromBinlist(bin, r).source == "binlist_net"
    ensures var shown := ToResponse(FromBinlist(bin, r));
            && shown.bin == bin && shown.prepaid == r.prepaid
            && shown.brand == Lower(Trim(r.scheme)) && shown.kind == Lower(Trim(r.kind))
            && shown.category == Lower(Trim(r.brand))
            && shown.bank.name == Trim(r.bankName) && shown.bank.url == Trim(r.bankUrl)
            && shown.bank.phone == Trim(r.bankPhone)
            && shown.country.name == Trim(r.countryName) && shown.country.code == Upper(Trim(r.alpha2))
            && shown.country.currency == Upper(Trim(r.currency))
            && shown.country.latitude == r.latitude && shown.country.longitude == r.longitude
  {
  }

  /** What the API shows of a Handy answer: the issuer is the bank, and the card's tier is its category. */
  lemma HandyShown(bin: string, r: HandyAnswer)
    ensures FromHandy(bin, r).source == "handy_api"
    ensures var shown := ToResponse(FromHandy(bin, r));
            && shown.bin == bin && shown.prepaid == None
            && shown.brand == Lower(Trim(r.scheme)) && shown.kind == Lower(Trim(r.kind))
            && shown.category == Lower(Trim(r.cardTier))
            && shown.bank.name == Trim(r.issuer) && shown.bank.url == "" && shown.bank.phone == ""
            && shown.country.name == Trim(r.countryName) && shown.country.code == Upper(Trim(r.alpha2))
            && shown.country.currency == "" && shown.country.latitude == None && shown.country.longitude == None
  {
  }

  /** The API shows the whole record except for where it came from. */
  lemma ResponseIsLossless(b: Bin)
    ensures var shown := ToResponse(b);
            b == Bin(shown.bin, shown.brand, shown.kind, shown.category,
                     shown.bank.name, shown.bank.url, shown.bank.phone,
                     shown.country.name, shown.country.code, shown.country.currency,
                     shown.country.latitude, shown.country.longitude, shown.prepaid, b.source)
  {
  }

  // ----- dataset rows -----

  /** The columns of the dataset, in the order of its header. */
  datatype CsvRow = CsvRow(
    bin: string, brand: string, kind: string, category: string, issuer: string,
    issuerPhone: string, issuerUrl: string, isoCode2: string, isoCode3: string, countryName: string)

  function Cells(r: CsvRow): seq<string> {
    [r.bin, r.brand, r.kind, r.category, r.issuer, r.issuerPhone, r.issuerUrl, r.isoCode2, r.isoCode3, r.countryName]
  }

  /** Every row with ten columns is such a row. */
  lemma RowsAreCells(row: seq<string>)
    requires |row| == 10
    ensures row == Cells(CsvRow(row[0], row[1], row[2], row[3], row[4], row[5], row[6], row[7], row[8], row[9]))
  {
  }

  ghost predicate FitsColumns(r: CsvRow) {
    && |Trim(r.brand)| <= 50 && |Trim(r.kind)| <= 20 && |Trim(r.category)| <= 50 && |Trim(r.issuer)| <= 200
    && |Trim(r.issuerPhone)| <= 100 && |Trim(r.issuerUrl)| <= 200 && |Trim(r.countryName)| <= 100
  }

  lemma WidthsAre(r: CsvRow)
    ensures (forall k | 0 <= k < |FIELDS| :: |Trim(Cells(r)[FIELDS[k].0])| <= FIELDS[k].1) <==> FitsColumns(r)
  {
    var row := Cells(r);
    assert FIELDS[0] == (1, 50) && FIELDS[1] == (2, 20) && FIELDS[2] == (3, 50) && FIELDS[3] == (4, 200);
    assert FIELDS[4] == (5, 100) && FIELDS[5] == (6, 200) && FIELDS[6] == (9, 100) && |FIELDS| == 7;
    hide Trim;
  }

  /** Which rows are accepted, and what is wrong with the others; the three-letter country code is never looked at. */
  lemma RowAcceptedIff(r: CsvRow)
    ensures RowOf(Cells(r)).Ok?
       <==> && ValidBin(Trim(r.bin)) && (Trim(r.isoCode2) == "" || AsciiAlpha(Trim(r.isoCode2), 2)) && FitsColumns(r)
    ensures !ValidBin(Trim(r.bin)) ==> RowOf(Cells(r)) == Err(BadBin)
    ensures ValidBin(Trim(r.bin)) && !(Trim(r.isoCode2) == "" || AsciiAlpha(Trim(r.isoCode2), 2)) ==>
              RowOf(Cells(r)) == Err(BadCountry)
    ensures ValidBin(Trim(r.bin)) && (Trim(r.isoCode2) == "" || AsciiAlpha(Trim(r.isoCode2), 2))
            && !FitsColumns(r) ==>
              RowOf(Cells(r)) == Err(TooLong)
  {
    WidthsAre(r);
    UpperCode(Trim(r.isoCode2));
    hide Trim, ValidBin, AsciiAlpha, AsciiUpper, Upper, FitsColumns, RowRecord;
  }

  /** Any other number of columns is refused. */
  lemma OtherWidthRefused(row: seq<string>)
    requires |row| != 10
    ensures RowOf(row) == Err(WrongColumns)
  {
  }

  /** What the API shows of an accepted row. */
  lemma RowShown(r: CsvRow)
    requires RowOf(Cells(r)).Ok?
    ensures RowOf(Cells(r)).value.source == "local"
    ensures var shown := ToResponse(RowOf(Cells(r)).value);
            && shown.bin == Trim(r.bin) && shown.prepaid == None
            && shown.brand == Lower(Trim(r.brand)) && shown.kind == Lower(Trim(r.kind))
            && shown.category == Lower(Trim(r.category))
            && shown.bank.name == Trim(r.issuer) && shown.bank.url == Trim(r.issuerUrl)
            && shown.bank.phone == Trim(r.issuerPhone)
            && shown.country.name == Trim(r.countryName) && shown.country.code == Upper(Trim(r.isoCode2))
            && shown.country.currency == "" && shown.country.latitude == None && shown.country.longitude == None
  {
    hide Trim, ValidBin, AsciiUpper, Lower, Upper;
  }

  /** A stored local row, written as a dataset row. */
  function RowFor(b: Bin): CsvRow {
    CsvRow(b.bin, b.brand, b.kind, b.category, b.bankName, b.bankPhone, b.bankUrl, b.countryCode, "", b.countryName)
  }

  lemma Stable(s: string)
    ensures Trim(Trim(s)) == Trim(s)
    ensures Lower(Trim(Lower(Trim(s)))) == Lower(Trim(s)) && Upper(Trim(Upper(Trim(s)))) == Upper(Trim(s))
    ensures |Trim(Lower(Trim(s)))| == |Trim(Upper(Trim(s)))| == |Trim(s)|
  {
    CaseKeepsTrim(s);
    CaseLaws(Trim(s));
    Blank(Trim(s));
    hide Trim, Lower, Upper;
  }

  /** What an import has stored can be imported again, and gives the same row. */
  lemma RowRoundTrip(r: CsvRow)
    requires RowOf(Cells(r)).Ok?
    ensures RowOf(Cells(RowFor(RowOf(Cells(r)).value))) == RowOf(Cells(r))
  {
    var b := RowOf(Cells(r)).value;
    RowAcceptedIff(r);
    RowAcceptedIff(RowFor(b));
    SameFields(r);
    RowIs(r);
    RowIs(RowFor(b));
    hide RowOf, Trim, Lower, Upper;
  }

  lemma RowIs(r: CsvRow)
    requires RowOf(Cells(r)).Ok?
    ensures RowOf(Cells(r)).value
         == Bin(Trim(r.bin), Lower(Trim(r.brand)), Lower(Trim(r.kind)), Lower(Trim(r.category)), Trim(r.issuer),
                Trim(r.issuerUrl), Trim(r.issuerPhone), Trim(r.countryName), Upper(Trim(r.isoCode2)), "",
                None, None, None, "local")
  {
    hide Trim, ValidBin, AsciiUpper, Lower, Upper;
  }

  lemma SameFields(r: CsvRow)
    requires RowOf(Cells(r)).Ok?
    ensures var q := RowFor(RowOf(Cells(r)).value);
            && Trim(q.bin) == Trim(r.bin) && Lower(Trim(q.brand)) == Lower(Trim(r.brand))
            && Lower(Trim(q.kind)) == Lower(Trim(r.kind)) && Lower(Trim(q.category)) == Lower(Trim(r.category))
            && Trim(q.issuer) == Trim(r.issuer) && Trim(q.issuerPhone) == Trim(r.issuerPhone)
            && Trim(q.issuerUrl) == Trim(r.issuerUrl) && Upper(Trim(q.isoCode2)) == Upper(Trim(r.isoCode2))
            && Trim(q.countryName) == Trim(r.countryName)
            && FitsColumns(q) == FitsColumns(r)
            && (Trim(q.isoCode2) == "" <==> Trim(r.isoCode2) == "")
            && (AsciiAlpha(Trim(q.isoCode2), 2) <==> AsciiAlpha(Trim(r.isoCode2), 2))
  {
    RowIs(r);
    Stable(r.bin);
    Stable(r.brand);
    Stable(r.kind);
    Stable(r.category);
    Stable(r.issuer);
    Stable(r.issuerPhone);
    Stable(r.issuerUrl);
    Stable(r.countryName);
    StableCode(r.isoCode2);
    hide RowOf, Trim, Lower, Upper, AsciiAlpha;
  }

  lemma StableCode(s: string)
    ensures Upper(Trim(Upper(Trim(s)))) == Upper(Trim(s))
    ensures Trim(Upper(Trim(s))) == "" <==> Trim(s) == ""
    ensures AsciiAlpha(Trim(Upper(Trim(s))), 2) <==> AsciiAlpha(Trim(s), 2)
  {
    Stable(s);
    CaseKeepsTrim(s);
    Blank(Trim(s));
    UpperCode(Trim(s));
    hide Trim, Upper, AsciiAlpha;
  }
}
