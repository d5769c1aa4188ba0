/** The calculator's opening answers in the United States, carried through the estimator and
    the recommendation engine. */
module DefaultScenario {
  import opened Wrappers
  import opened Types
  import opened Calculations
  import opened EcoTips
  import opened StableSort
  import opened Quotients
  import InputForm

  /** The opening answers with the default location. */
  function Defaults(): HouseholdData {
    InputForm.DefaultFormData("US")
  }

  /** The six unrounded buckets of the opening answers at the United States grid factor. */
  lemma DefaultBuckets()
    ensures UtilitiesTotal(Defaults(), 0.855) == 23342.3
    ensures TransportationTotal(Defaults(), 0.855) == 6419.36
    ensures DietTotal(Defaults()) == 5588.0
    ensures GoodsTotal(Defaults()) == 3542.592
    ensures DigitalTotal(Defaults()) == 375.6
    ensures TravelTotal(Defaults()) == 150.0
  {
  }

  /** The estimate of the opening answers. */
  lemma DefaultEmissions()
    ensures CalculateEmissions(Defaults()) == EmissionResults(23342, 6419, 5588, 3543, 376, 150, 39418, Finite(19709.0))
  {
    MissingLocationIsUS(Some("US"));
    DefaultBuckets();
    assert UnroundedTotal(Defaults(), 0.855) == 39417.852;
    assert Round(39417.852 / 2.0) == 19709;
  }

  const DefaultResults := EmissionResults(23342, 6419, 5588, 3543, 376, 150, 39418, Finite(19709.0))

  /** What each catalogue entry estimates for the opening answers, and whether it applies. */
  function DefaultTip(k: TipKind): EcoTip {
    match k
    case LedLighting => EcoTip(k, 2334, true)
    case Thermostat => EcoTip(k, 3501, false)
    case PublicTransport => EcoTip(k, 1926, true)
    case ElectricVehicle => EcoTip(k, 3851, true)
    case ReduceMeat => EcoTip(k, 1118, true)
    case LocalFood => EcoTip(k, 559, true)
    case EnergyAudit => EcoTip(k, 4668, false)
    case RenewableEnergy => EcoTip(k, 18674, false)
    case ReduceFlights => EcoTip(k, 200, false)
    case SustainableFashion => EcoTip(k, 132, true)
    case ReducePackaging => EcoTip(k, 192, true)
    case GreenInvestments => EcoTip(k, 500, false)
  }

  /** The catalogue evaluated on the opening answers and their estimate. */
  lemma DefaultCatalogueEntry(k: TipKind)
    ensures Tip(k, Defaults(), DefaultResults) == DefaultTip(k)
  {
  }

  /** For the opening answers, an entry is recommended exactly when the table above marks it
      applicable: seven of the twelve. */
  lemma DefaultRecommended(k: TipKind)
    ensures Recommends(Defaults(), DefaultResults, k) <==> DefaultTip(k).applicable
  {
    RecommendedWhenApplicable(Defaults(), DefaultResults, k);
    DefaultCatalogueEntry(k);
  }

  /** Over the table above, the electric vehicle saves strictly the most of the applicable
      entries. */
  lemma TableTop(c: seq<EcoTip>)
    requires |c| == |Kinds| && forall i :: 0 <= i < |c| ==> c[i] == DefaultTip(Kinds[i])
    ensures |Recommend(c)| >= 1 && Recommend(c)[0] == EcoTip(ElectricVehicle, 3851, true)
  {
    var ev := EcoTip(ElectricVehicle, 3851, true);
    assert c[3] == ev;
    forall t | t in c && t.applicable && t != ev
      ensures t.potentialSavings < ev.potentialSavings
    {
      var i :| 0 <= i < |c| && c[i] == t;
    }
    RecommendTop(c, ev);
  }

  /** The first recommendation for the opening answers is the electric vehicle, saving
      3851 kg a year. */
  lemma DefaultFirstRecommendation()
    ensures |GenerateEcoTips(Defaults(), DefaultResults)| >= 1
    ensures GenerateEcoTips(Defaults(), DefaultResults)[0] == EcoTip(ElectricVehicle, 3851, true)
  {
    var c := Catalogue(Defaults(), DefaultResults);
    forall i | 0 <= i < |c|
      ensures c[i] == DefaultTip(Kinds[i])
    {
      DefaultCatalogueEntry(Kinds[i]);
    }
    TableTop(c);
  }
}
