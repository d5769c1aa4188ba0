/** What the estimator promises: rounding, baselines, monotonicity and the sign of utilities. */
module EmissionProperties {
  import opened Types
  import opened Calculations

  /** Every activity quantity is non-negative (the household size is treated separately). */
  predicate NonNegative(d: HouseholdData) {
    && d.electricity >= 0.0 && d.naturalGas >= 0.0 && d.lpgUsage >= 0.0
    && d.waterUsage >= 0.0 && d.wasteGeneration >= 0.0 && d.recyclingRate >= 0.0
    && d.weeklyDistance >= 0.0 && d.monthlyFuel >= 0.0 && d.publicTransport >= 0.0
    && d.flightsShortHaul >= 0.0 && d.flightsLongHaul >= 0.0 && d.rideshareUsage >= 0.0
    && d.evCharging >= 0.0 && d.foodWaste >= 0.0 && d.mealsOut >= 0.0
    && d.clothingPurchases >= 0.0 && d.electronicsPurchases >= 0.0
    && d.furnitureSpending >= 0.0 && d.streamingHours >= 0.0
    && d.packagingWaste >= 0.0 && d.dataUsage >= 0.0 && d.cryptoTransactions >= 0.0
    && d.hotelNights >= 0.0 && d.recreationalDriving >= 0.0
  }

  /** Every quantity that enters a formula is zero. */
  predicate NoActivity(d: HouseholdData) {
    && d.electricity == 0.0 && d.naturalGas == 0.0 && d.lpgUsage == 0.0
    && d.waterUsage == 0.0 && d.wasteGeneration == 0.0 && d.recyclingRate == 0.0
    && d.weeklyDistance == 0.0 && d.monthlyFuel == 0.0 && d.publicTransport == 0.0
    && d.flightsShortHaul == 0.0 && d.flightsLongHaul == 0.0 && d.rideshareUsage == 0.0
    && d.evCharging == 0.0 && d.foodWaste == 0.0 && d.mealsOut == 0.0
    && d.clothingPurchases == 0.0 && d.electronicsPurchases == 0.0
    && d.furnitureSpending == 0.0 && d.streamingHours == 0.0
    && d.packagingWaste == 0.0 && d.dataUsage == 0.0 && d.cryptoTransactions == 0.0
    && d.hotelNights == 0.0 && d.recreationalDriving == 0.0
  }

  /** The `electricity` field holds the whole utilities bucket: one therm of gas a month
      and nothing else shows up there, as 12 x 5.3 = 63.6 rounded. */
  lemma GasCountsAsElectricity(d: HouseholdData)
    requires NoActivity(d.(naturalGas := 0.0)) && d.naturalGas == 1.0
    ensures CalculateEmissions(d).electricity == 64
  {
    assert UtilitiesTotal(d, ElectricityFactor(d.location)) == 63.6;
  }

  /** With no activity at all only the diet baseline remains: diet is the per-person
      baseline times the household size, and every other bucket is zero. */
  lemma ZeroActivity(d: HouseholdData)
    requires NoActivity(d) && d.householdSize >= 1.0
    ensures CalculateEmissions(d).diet == Round(DietFactor(d.dietType) * d.householdSize)
    ensures CalculateEmissions(d).diet >= 1500
    ensures CalculateEmissions(d).electricity == 0 && CalculateEmissions(d).transportation == 0
    ensures CalculateEmissions(d).goods == 0 && CalculateEmissions(d).digital == 0
    ensures CalculateEmissions(d).travel == 0
  {
    var f := ElectricityFactor(d.location);
    assert UtilitiesTotal(d, f) == 0.0;
    assert TransportationTotal(d, f) == 0.0;
    assert DietTotal(d) == DietFactor(d.dietType) * d.householdSize;
    MulMonotone(1.0, d.householdSize, DietFactor(d.dietType));
  }

  /** Landfill minus recycling credit for `w` kg a week at `rate` percent: the credit
      (0.2 per kg) never outweighs the landfill term (0.5 per kg) up to 250 percent. */
  lemma WasteNetNonNegative(w: real, rate: real)
    requires w >= 0.0 && 0.0 <= rate <= 250.0
    ensures w * 52.0 * 0.5 + w * rate / 100.0 * 52.0 * (-0.2) >= 0.0
  {
    assert w * 52.0 * 0.5 + w * rate / 100.0 * 52.0 * (-0.2) == w * (26.0 - 0.104 * rate);
    MulMonotone(0.0, w, 26.0 - 0.104 * rate);
  }

  lemma UtilitiesBucketNonNegative(d: HouseholdData, f: real)
    requires NonNegative(d) && d.recyclingRate <= 100.0 && f >= 0.0
    ensures UtilitiesTotal(d, f) >= 0.0
  {
    MulMonotone(0.0, d.electricity * 12.0, f);
    WasteNetNonNegative(d.wasteGeneration, d.recyclingRate);
  }

  /** For non-negative inputs with at most 100 percent recycling utilities stay
      non-negative, even though the code applies no clamp. */
  lemma UtilitiesNonNegative(d: HouseholdData)
    requires NonNegative(d) && d.recyclingRate <= 100.0
    ensures CalculateEmissions(d).electricity >= 0
  {
    UtilitiesBucketNonNegative(d, ElectricityFactor(d.location));
  }

  /** The bucket can go negative: a recycling rate above 250 percent, which `validateForm`
      does not check, turns ten kilos of weekly waste into a net credit. */
  lemma UtilitiesUnclamped(d: HouseholdData)
    requires NoActivity(d.(wasteGeneration := 0.0, recyclingRate := 0.0))
    requires d.wasteGeneration == 10.0 && d.recyclingRate == 300.0
    ensures CalculateEmissions(d).electricity == -52
  {
    assert UtilitiesTotal(d, ElectricityFactor(d.location)) == -52.0;
  }

  lemma RecyclingBucketMonotone(d: HouseholdData, rate: real, f: real)
    requires d.wasteGeneration >= 0.0 && d.recyclingRate <= rate
    ensures UtilitiesTotal(d.(recyclingRate := rate), f) <= UtilitiesTotal(d, f)
  {
    MulMonotone(d.recyclingRate, rate, d.wasteGeneration * 0.104);
    assert UtilitiesTotal(d.(recyclingRate := rate), f) - UtilitiesTotal(d, f)
        == -(rate - d.recyclingRate) * (d.wasteGeneration * 0.104);
  }

  /** Raising the recycling rate never raises utilities. */
  lemma RecyclingMonotone(d: HouseholdData, rate: real)
    requires d.wasteGeneration >= 0.0 && d.recyclingRate <= rate
    ensures CalculateEmissions(d.(recyclingRate := rate)).electricity <= CalculateEmissions(d).electricity
  {
    RecyclingBucketMonotone(d, rate, ElectricityFactor(d.location));
    RoundMonotone(UtilitiesTotal(d.(recyclingRate := rate), ElectricityFactor(d.location)),
                  UtilitiesTotal(d, ElectricityFactor(d.location)));
  }

  predicate UtilitiesInputsGrow(d1: HouseholdData, d2: HouseholdData) {
    && 0.0 <= d1.electricity <= d2.electricity
    && 0.0 <= d1.naturalGas <= d2.naturalGas
    && 0.0 <= d1.lpgUsage <= d2.lpgUsage
    && 0.0 <= d1.waterUsage <= d2.waterUsage
    && 0.0 <= d1.wasteGeneration <= d2.wasteGeneration
    && d1.recyclingRate == d2.recyclingRate && 0.0 <= d1.recyclingRate <= 250.0
    && d1.location == d2.location
  }

  lemma UtilitiesBucketMonotone(d1: HouseholdData, d2: HouseholdData, f: real)
    requires UtilitiesInputsGrow(d1, d2) && f >= 0.0
    ensures UtilitiesTotal(d1, f) <= UtilitiesTotal(d2, f)
  {
    MulMonotone(d1.electricity * 12.0, d2.electricity * 12.0, f);
    var c := 26.0 - 0.104 * d1.recyclingRate;
    MulMonotone(d1.wasteGeneration, d2.wasteGeneration, c);
    WasteTerms(d1.wasteGeneration, d1.recyclingRate, c);
    WasteTerms(d2.wasteGeneration, d2.recyclingRate, c);
    assert d1.naturalGas * 12.0 * 5.3 <= d2.naturalGas * 12.0 * 5.3;
    assert d1.lpgUsage * 12.0 * 3.0 <= d2.lpgUsage * 12.0 * 3.0;
    assert d1.waterUsage * 365.0 * 0.298 <= d2.waterUsage * 365.0 * 0.298;
  }

  /** The landfill charge and the recycling credit of one waste quantity, as one product. */
  lemma WasteTerms(w: real, rate: real, c: real)
    requires c == 26.0 - 0.104 * rate
    ensures w * 52.0 * 0.5 + w * rate / 100.0 * 52.0 * (-0.2) == w * c
  {
  }

  /** Raising any utilities quantity never lowers the utilities bucket (for waste this needs
      a recycling rate of at most 250 percent, which contains the documented 0..100). */
  lemma UtilitiesMonotone(d1: HouseholdData, d2: HouseholdData)
    requires UtilitiesInputsGrow(d1, d2)
    ensures CalculateEmissions(d1).electricity <= CalculateEmissions(d2).electricity
  {
    var f := ElectricityFactor(d1.location);
    UtilitiesBucketMonotone(d1, d2, f);
    RoundMonotone(UtilitiesTotal(d1, f), UtilitiesTotal(d2, f));
  }

  predicate TransportationInputsGrow(d1: HouseholdData, d2: HouseholdData) {
    && 0.0 <= d1.weeklyDistance <= d2.weeklyDistance
    && 0.0 <= d1.monthlyFuel <= d2.monthlyFuel
    && 0.0 <= d1.publicTransport <= d2.publicTransport
    && 0.0 <= d1.flightsShortHaul <= d2.flightsShortHaul
    && 0.0 <= d1.flightsLongHaul <= d2.flightsLongHaul
    && 0.0 <= d1.rideshareUsage <= d2.rideshareUsage
    && 0.0 <= d1.evCharging <= d2.evCharging
    && 0.0 <= d1.recreationalDriving <= d2.recreationalDriving
    && d1.vehicleType == d2.vehicleType && d1.location == d2.location
  }

  lemma TransportationBucketMonotone(d1: HouseholdData, d2: HouseholdData, f: real)
    requires TransportationInputsGrow(d1, d2) && f >= 0.0
    ensures TransportationTotal(d1, f) <= TransportationTotal(d2, f)
  {
    var v := VehicleFactor(d1.vehicleType);
    MulMonotone(d1.weeklyDistance * 52.0, d2.weeklyDistance * 52.0, v);
    MulMonotone(d1.evCharging * 12.0, d2.evCharging * 12.0, f);
    MulMonotone(d1.recreationalDriving * 12.0, d2.recreationalDriving * 12.0, v);
    assert d1.monthlyFuel * 12.0 * 2.31 <= d2.monthlyFuel * 12.0 * 2.31;
    assert d1.publicTransport * 52.0 * 0.089 <= d2.publicTransport * 52.0 * 0.089;
    assert d1.flightsShortHaul * 200.0 + d1.flightsLongHaul * 1000.0
        <= d2.flightsShortHaul * 200.0 + d2.flightsLongHaul * 1000.0;
    assert d1.rideshareUsage * 12.0 * 0.2 <= d2.rideshareUsage * 12.0 * 0.2;
  }

  lemma TransportationMonotone(d1: HouseholdData, d2: HouseholdData)
    requires TransportationInputsGrow(d1, d2)
    ensures CalculateEmissions(d1).transportation <= CalculateEmissions(d2).transportation
  {
    var f := ElectricityFactor(d1.location);
    TransportationBucketMonotone(d1, d2, f);
    RoundMonotone(TransportationTotal(d1, f), TransportationTotal(d2, f));
  }

  predicate DietInputsGrow(d1: HouseholdData, d2: HouseholdData) {
    && 0.0 <= d1.householdSize <= d2.householdSize
    && 0.0 <= d1.foodWaste <= d2.foodWaste
    && 0.0 <= d1.mealsOut <= d2.mealsOut
    && d1.dietType == d2.dietType
  }

  /** A larger household, more food waste or more meals out never lower the diet bucket. */
  lemma DietMonotone(d1: HouseholdData, d2: HouseholdData)
    requires DietInputsGrow(d1, d2)
    ensures CalculateEmissions(d1).diet <= CalculateEmissions(d2).diet
  {
    MulMonotone(d1.householdSize, d2.householdSize, DietFactor(d1.dietType));
    RoundMonotone(DietTotal(d1), DietTotal(d2));
  }

  predicate GoodsInputsGrow(d1: HouseholdData, d2: HouseholdData) {
    && 0.0 <= d1.clothingPurchases <= d2.clothingPurchases
    && 0.0 <= d1.electronicsPurchases <= d2.electronicsPurchases
    && 0.0 <= d1.furnitureSpending <= d2.furnitureSpending
    && 0.0 <= d1.streamingHours <= d2.streamingHours
    && d1.streamingQuality == d2.streamingQuality
  }

  lemma GoodsMonotone(d1: HouseholdData, d2: HouseholdData)
    requires GoodsInputsGrow(d1, d2)
    ensures CalculateEmissions(d1).goods <= CalculateEmissions(d2).goods
  {
    RoundMonotone(GoodsTotal(d1), GoodsTotal(d2));
  }

  predicate DigitalInputsGrow(d1: HouseholdData, d2: HouseholdData) {
    && 0.0 <= d1.packagingWaste <= d2.packagingWaste
    && 0.0 <= d1.dataUsage <= d2.dataUsage
    && 0.0 <= d1.cryptoTransactions <= d2.cryptoTransactions
  }

  lemma DigitalMonotone(d1: HouseholdData, d2: HouseholdData)
    requires DigitalInputsGrow(d1, d2)
    ensures CalculateEmissions(d1).digital <= CalculateEmissions(d2).digital
  {
    RoundMonotone(DigitalTotal(d1), DigitalTotal(d2));
  }

  lemma TravelMonotone(d1: HouseholdData, d2: HouseholdData)
    requires 0.0 <= d1.hotelNights <= d2.hotelNights
    ensures CalculateEmissions(d1).travel <= CalculateEmissions(d2).travel
  {
    RoundMonotone(TravelTotal(d1), TravelTotal(d2));
  }

  /** Every bucket of a non-negative record with at most 100 percent recycling is
      non-negative and diet carries its baseline, so the rounded total is at least the
      smallest one-person baseline. Entries made from such records therefore make the
      tracker's percentage changes well defined. */
  lemma TotalPositive(d: HouseholdData)
    requires NonNegative(d) && d.recyclingRate <= 100.0 && d.householdSize >= 1.0
    ensures CalculateEmissions(d).total >= 1500
  {
    UnroundedTotalAtLeastBaseline(d, ElectricityFactor(d.location));
  }

  lemma UnroundedTotalAtLeastBaseline(d: HouseholdData, f: real)
    requires NonNegative(d) && d.recyclingRate <= 100.0 && d.householdSize >= 1.0 && f >= 0.0
    ensures UnroundedTotal(d, f) >= 1500.0
  {
    UtilitiesBucketNonNegative(d, f);
    MulMonotone(0.0, d.evCharging * 12.0, f);
    assert TransportationTotal(d, f) >= 0.0;
    MulMonotone(1.0, d.householdSize, DietFactor(d.dietType));
    assert DietTotal(d) >= 1500.0;
  }
}
