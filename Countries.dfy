/** The region catalogue: grid carbon intensity (kg CO2 per kWh) per country code. */
module Countries {
  import opened Wrappers

  /** A catalogue row. The flag emoji of the original row is presentation and left out. */
  datatype Country = Country(code: string, name: string, electricityFactor: real)

  const Table: seq<Country> := [
    Country("US", "United States", 0.855),
    Country("IN", "India", 0.82),
    Country("CN", "China", 0.681),
    Country("DE", "Germany", 0.401),
    Country("FR", "France", 0.056),
    Country("GB", "United Kingdom", 0.233),
    Country("JP", "Japan", 0.518),
    Country("CA", "Canada", 0.130),
    Country("AU", "Australia", 0.634),
    Country("BR", "Brazil", 0.074),
    Country("RU", "Russia", 0.322),
    Country("ZA", "South Africa", 0.928),
    Country("KR", "South Korea", 0.459),
    Country("MX", "Mexico", 0.458),
    Country("ID", "Indonesia", 0.709),
    Country("TR", "Turkey", 0.486),
    Country("SA", "Saudi Arabia", 0.631),
    Country("AR", "Argentina", 0.364),
    Country("IT", "Italy", 0.233),
    Country("ES", "Spain", 0.154),
    Country("TH", "Thailand", 0.521),
    Country("PL", "Poland", 0.781),
    Country("NL", "Netherlands", 0.285),
    Country("MY", "Malaysia", 0.708),
    Country("BD", "Bangladesh", 0.610)
  ]

  /** `Array.prototype.find` with an exact code comparison: the first row whose code is `code`. */
  function Find(rows: seq<Country>, code: string): (r: Option<Country>)
    ensures r.None? <==> forall i :: 0 <= i < |rows| ==> rows[i].code != code
    ensures r.Some? ==> exists i :: 0 <= i < |rows| && rows[i] == r.value
                          && rows[i].code == code
                          && forall j :: 0 <= j < i ==> rows[j].code != code
  {
    if rows == [] then None
    else if rows[0].code == code then Some(rows[0])
    else
      var r := Find(rows[1..], code);
      assert r.Some? ==> exists i :: 0 <= i < |rows[1..]| && rows[1..][i] == r.value
                          && rows[1..][i].code == code
                          && forall j :: 0 <= j < i ==> rows[1..][j].code != code;
      r
  }

  function GetCountryByCode(code: string): (r: Option<Country>)
    ensures r.Some? ==> r.value in Table && r.value.code == code
    ensures r.None? <==> forall i :: 0 <= i < |Table| ==> Table[i].code != code
  {
    Find(Table, code)
  }

  /** The row at which each catalogue code sits, and -1 for any other string. */
  function Position(code: string): int {
    match code
    case "US" => 0 case "IN" => 1 case "CN" => 2 case "DE" => 3 case "FR" => 4
    case "GB" => 5 case "JP" => 6 case "CA" => 7 case "AU" => 8 case "BR" => 9
    case "RU" => 10 case "ZA" => 11 case "KR" => 12 case "MX" => 13 case "ID" => 14
    case "TR" => 15 case "SA" => 16 case "AR" => 17 case "IT" => 18 case "ES" => 19
    case "TH" => 20 case "PL" => 21 case "NL" => 22 case "MY" => 23 case "BD" => 24
    case _ => -1
  }

  /** The catalogue's country codes are pairwise distinct, so a lookup has one answer: each
      code determines the row it sits at. */
  lemma CodesDistinct()
    ensures forall i, j :: 0 <= i < j < |Table| ==> Table[i].code != Table[j].code
  {
    assert forall i :: 0 <= i < |Table| ==> Position(Table[i].code) == i;
  }

  /** A code found in the catalogue resolves to the row holding it, whatever its position. */
  lemma LookupUnique(i: nat)
    requires i < |Table|
    ensures GetCountryByCode(Table[i].code) == Some(Table[i])
  {
    CodesDistinct();
  }

  /** Every grid factor is strictly positive, so a JavaScript `factor || fallback` never
      discards a catalogue row's factor. */
  lemma FactorsPositive()
    ensures forall c :: c in Table ==> c.electricityFactor > 0.0
  {
    assert forall i :: 0 <= i < |Table| ==> Table[i].electricityFactor > 0.0;
  }

  /** The default location resolves; matching is case-sensitive. */
  lemma DefaultLocationResolves()
    ensures GetCountryByCode("US") == Some(Country("US", "United States", 0.855))
    ensures GetCountryByCode("us") == None
  {
    assert Table[0] == Country("US", "United States", 0.855);
    NoLowerCaseCode();
  }

  /** Codes are written in capitals, so the lower-case spelling of the default is absent. */
  lemma NoLowerCaseCode()
    ensures forall i :: 0 <= i < |Table| ==> Table[i].code != "us"
  {
    forall i | 0 <= i < |Table| ensures Table[i].code != "us" {
      assert Table[i].code[0] != 'u';
    }
  }
}
