/** The emission estimator: one linear term per activity field, six buckets, rounding. */
module Calculations {
  import opened Wrappers
  import opened Types
  import opened Quotients
  import Countries

  // ---------------------------------------------------------------------------
  // Emission factors (kg CO2 per unit). The fixed factors are written as literals in the
  // bucket formulas below, each with its unit; the keyed ones are tables.
  // ---------------------------------------------------------------------------

  /** The grid factor used when the location code is not in the catalogue. */
  const DefaultElectricityFactor: real := 0.92

  /** Per km driven: electric is the cleanest, petrol the dirtiest. */
  function VehicleFactor(v: VehicleType): (f: real)
    ensures 0.053 <= f <= 0.271
    ensures f == 0.053 <==> v == Electric
  {
    match v
    case Petrol => 0.271
    case Diesel => 0.247
    case Electric => 0.053
    case Hybrid => 0.156
  }

  /** Annual per-person diet baseline: at least the vegan 1500, at most the meat-heavy 3300. */
  function DietFactor(d: DietType): (f: real)
    ensures 1500.0 <= f <= 3300.0
    ensures f == 1500.0 <==> d == Vegan
  {
    match d
    case MeatHeavy => 3300.0
    case Average => 2500.0
    case Vegetarian => 1700.0
    case Vegan => 1500.0
  }

  /** Per streaming hour: the factor grows with the quality, 4K being three times SD. */
  function StreamingFactor(q: StreamingQuality): (f: real)
    ensures 0.0036 <= f <= 0.0108
    ensures q == UHD4K ==> f == 3.0 * 0.0036
  {
    match q
    case SD => 0.0036
    case HD => 0.0072
    case UHD4K => 0.0108
  }

  // ---------------------------------------------------------------------------
  // Rounding
  // ---------------------------------------------------------------------------

  /** JavaScript's `Math.round`: halves round towards positive infinity. */
  function Round(x: real): (r: int)
    ensures x - 0.5 < r as real <= x + 0.5
  {
    (x + 0.5).Floor
  }

  lemma RoundMonotone(x: real, y: real)
    requires x <= y
    ensures Round(x) <= Round(y)
  {
  }

  // ---------------------------------------------------------------------------
  // Region lookup
  // ---------------------------------------------------------------------------

  /** `data.location || 'US'`: a missing or empty location means the United States. */
  function LocationCode(location: Option<string>): (code: string)
    ensures code != ""
    ensures code == "US" || location == Some(code)
  {
    match location
    case None => "US"
    case Some(code) => if code == "" then "US" else code
  }

  /** `country?.electricityFactor || 0.92`. */
  function ElectricityFactor(location: Option<string>): (f: real)
    ensures f > 0.0
  {
    Countries.FactorsPositive();
    var country := Countries.GetCountryByCode(LocationCode(location));
    if country.Some? && country.value.electricityFactor != 0.0 then country.value.electricityFactor
    else DefaultElectricityFactor
  }

  /** An unknown code falls back to the global default, a known one uses its own row; since
      no row carries 0.92, the factor is the default exactly when the code is unknown. */
  lemma {:induction false} ElectricityFactorResolution(location: Option<string>)
    ensures Countries.GetCountryByCode(LocationCode(location)).None? ==>
              ElectricityFactor(location) == DefaultElectricityFactor
    ensures Countries.GetCountryByCode(LocationCode(location)).Some? ==>
              ElectricityFactor(location) == Countries.GetCountryByCode(LocationCode(location)).value.electricityFactor
    ensures ElectricityFactor(location) == DefaultElectricityFactor <==>
              Countries.GetCountryByCode(LocationCode(location)).None?
  {
    Countries.FactorsPositive();
    NoRowUsesDefault();
  }

  /** No catalogue row carries the fallback factor. */
  lemma NoRowUsesDefault()
    ensures forall c :: c in Countries.Table ==> c.electricityFactor != DefaultElectricityFactor
  {
    assert forall i :: 0 <= i < |Countries.Table| ==> Countries.Table[i].electricityFactor != 0.92;
  }

  /** A missing or empty location behaves like "US", whose factor is 0.855. */
  lemma MissingLocationIsUS(location: Option<string>)
    requires location.None? || location == Some("") || location == Some("US")
    ensures LocationCode(location) == "US"
    ensures ElectricityFactor(location) == 0.855
  {
    assert LocationCode(location) == "US";
    USFactor();
    ElectricityFactorResolution(location);
  }

  /** The United States row carries 0.855. */
  lemma USFactor()
    ensures Countries.GetCountryByCode("US").Some?
    ensures Countries.GetCountryByCode("US").value.electricityFactor == 0.855
  {
    Countries.DefaultLocationResolves();
  }

  // ---------------------------------------------------------------------------
  // The six buckets, before rounding
  // ---------------------------------------------------------------------------

  /** Electricity, natural gas, LPG, water, landfill waste and the recycling credit. */
  function UtilitiesTotal(d: HouseholdData, gridFactor: real): real {
    d.electricity * 12.0 * gridFactor
    + d.naturalGas * 12.0 * 5.3                          // per therm
    + d.lpgUsage * 12.0 * 3.0                            // per kg of LPG
    + d.waterUsage * 365.0 * 0.298                       // per litre
    + d.wasteGeneration * 52.0 * 0.5                     // per kg to landfill
    + d.wasteGeneration * d.recyclingRate / 100.0 * 52.0 * (-0.2)  // per kg recycled
  }

  function TransportationTotal(d: HouseholdData, gridFactor: real): real {
    d.weeklyDistance * 52.0 * VehicleFactor(d.vehicleType)
    + d.monthlyFuel * 12.0 * 2.31                        // per litre of petrol
    + d.publicTransport * 52.0 * 0.089                   // per km
    + (d.flightsShortHaul * 200.0 + d.flightsLongHaul * 1000.0)  // per flight
    + d.rideshareUsage * 12.0 * 0.2                      // per km
    + d.evCharging * 12.0 * gridFactor
    + d.recreationalDriving * 12.0 * VehicleFactor(d.vehicleType)
  }

  function DietTotal(d: HouseholdData): real {
    DietFactor(d.dietType) * d.householdSize
    + d.foodWaste * 12.0 * 3.3                           // per kg of food waste
    + d.mealsOut * 52.0 * 2.5                            // per meal out
  }

  function GoodsTotal(d: HouseholdData): real {
    d.clothingPurchases * 22.0                           // per clothing item
    + d.electronicsPurchases * 300.0                     // per electronics item
    + d.furnitureSpending * 0.5                          // per currency unit
    + d.streamingHours * 12.0 * StreamingFactor(d.streamingQuality)
  }

  function DigitalTotal(d: HouseholdData): real {
    d.packagingWaste * 12.0 * 2.1                        // per kg of packaging
    + d.dataUsage * 12.0 * 0.5                           // per GB
    + d.cryptoTransactions * 12.0 * 700.0                // per transaction
  }

  function TravelTotal(d: HouseholdData): real {
    d.hotelNights * 30.0                                 // per hotel night
  }

  /** The grand total of the six unrounded buckets. */
  function UnroundedTotal(d: HouseholdData, gridFactor: real): real {
    UtilitiesTotal(d, gridFactor) + TransportationTotal(d, gridFactor) + DietTotal(d)
    + GoodsTotal(d) + DigitalTotal(d) + TravelTotal(d)
  }

  // ---------------------------------------------------------------------------
  // The estimator
  // ---------------------------------------------------------------------------

  /** `Math.round(total / householdSize)`: a whole number for a non-zero size, otherwise
      the infinity of the total's sign, or NaN for a zero total. */
  function PerPerson(total: real, size: real): (p: Number)
    ensures p.Finite? <==> size != 0.0
    ensures p.Finite? ==> p.value == p.value.Floor as real
    ensures p.Finite? ==> total / size - 0.5 < p.value <= total / size + 0.5
    ensures size > 0.0 ==> (p.value - 0.5) * size <= total < (p.value + 0.5) * size
    ensures size == 0.0 ==> (p.PlusInfinity? <==> total > 0.0) && (p.NotANumber? <==> total == 0.0)
  {
    if size != 0.0 then
      var n := Round(total / size);
      PerPersonBounds(total, size, n);
      Finite(n as real)
    else DivideByZero(total)
  }

  /** `calculateEmissions`. Each bucket is rounded on its own; the total is the rounding of
      the unrounded grand total, and per-person is the rounding of that unrounded total
      divided by the household size. */
  function CalculateEmissions(d: HouseholdData): (r: EmissionResults)
    ensures -3 <= r.total - (r.electricity + r.transportation + r.diet + r.goods + r.digital + r.travel) <= 3
    ensures r.perPerson == PerPerson(UnroundedTotal(d, ElectricityFactor(d.location)), d.householdSize)
  {
    var gridFactor := ElectricityFactor(d.location);
    var total := UnroundedTotal(d, gridFactor);
    EmissionResults(
      Round(UtilitiesTotal(d, gridFactor)),
      Round(TransportationTotal(d, gridFactor)),
      Round(DietTotal(d)),
      Round(GoodsTotal(d)),
      Round(DigitalTotal(d)),
      Round(TravelTotal(d)),
      Round(total),
      PerPerson(total, d.householdSize))
  }

  /** Over a positive size, rounding the quotient brackets the total. */
  lemma PerPersonBounds(total: real, size: real, p: int)
    requires size != 0.0
    requires total / size - 0.5 < p as real <= total / size + 0.5
    ensures size > 0.0 ==> (p as real - 0.5) * size <= total < (p as real + 0.5) * size
  {
    if size > 0.0 {
      var q := total / size;
      assert q * size == total;
      MulMonotone(p as real - 0.5, q, size);
      MulStrictMonotone(q, p as real + 0.5, size);
    }
  }

  lemma MulMonotone(a: real, b: real, c: real)
    requires a <= b && c >= 0.0
    ensures a * c <= b * c
  {
    assert b * c - a * c == (b - a) * c;
  }

  lemma MulStrictMonotone(a: real, b: real, c: real)
    requires a < b && c > 0.0
    ensures a * c < b * c
  {
    assert b * c - a * c == (b - a) * c;
  }
}
