/** The recommendation engine: a fixed catalogue of twelve tips, filtered to the applicable
    ones and stably sorted by potential savings, largest first. */
module EcoTips {
  import opened Wrappers
  import opened Types
  import opened StableSort
  import opened Calculations

  /** The twelve catalogue entries. */
  datatype TipKind =
    | LedLighting | Thermostat | PublicTransport | ElectricVehicle | ReduceMeat | LocalFood
    | EnergyAudit | RenewableEnergy | ReduceFlights | SustainableFashion | ReducePackaging
    | GreenInvestments
  {
    function Id(): string {
      match this
      case LedLighting => "led-lighting"
      case Thermostat => "thermostat"
      case PublicTransport => "public-transport"
      case ElectricVehicle => "electric-vehicle"
      case ReduceMeat => "reduce-meat"
      case LocalFood => "local-food"
      case EnergyAudit => "energy-audit"
      case RenewableEnergy => "renewable-energy"
      case ReduceFlights => "reduce-flights"
      case SustainableFashion => "sustainable-fashion"
      case ReducePackaging => "reduce-packaging"
      case GreenInvestments => "green-investments"
    }

    function Category(): string {
      match this
      case LedLighting | Thermostat | EnergyAudit | RenewableEnergy => "Energy"
      case PublicTransport | ElectricVehicle | ReduceFlights => "Transportation"
      case ReduceMeat | LocalFood => "Diet"
      case SustainableFashion => "Goods"
      case ReducePackaging => "Digital"
      case GreenInvestments => "Finance"
    }

    function Text(): string {
      match this
      case LedLighting => "Switch to LED bulbs throughout your home to reduce energy consumption."
      case Thermostat => "Install a programmable thermostat to optimize heating and cooling."
      case PublicTransport => "Use public transportation or bike for short trips to reduce vehicle emissions."
      case ElectricVehicle => "Consider switching to an electric or hybrid vehicle for your next purchase."
      case ReduceMeat => "Reduce meat consumption by 2 days per week to lower your dietary footprint."
      case LocalFood => "Buy local and seasonal produce to reduce transportation emissions."
      case EnergyAudit => "Conduct a home energy audit to identify areas for improvement."
      case RenewableEnergy => "Consider installing solar panels or switching to renewable energy."
      case ReduceFlights => "Consider virtual meetings or train travel instead of short-haul flights."
      case SustainableFashion => "Buy fewer, higher-quality clothing items and consider second-hand options."
      case ReducePackaging => "Choose eco-friendly delivery options and reduce online shopping frequency."
      case GreenInvestments => "Consider switching to ESG or green investment funds."
    }
  }

  /** A tip: its catalogue entry (which fixes the id, category and text), the estimated
      annual saving and whether it applies to the household. */
  datatype EcoTip = EcoTip(kind: TipKind, potentialSavings: int, applicable: bool)

  /** The catalogue's entries in declaration order. */
  const Kinds: seq<TipKind> := [
    LedLighting, Thermostat, PublicTransport, ElectricVehicle, ReduceMeat, LocalFood,
    EnergyAudit, RenewableEnergy, ReduceFlights, SustainableFashion, ReducePackaging,
    GreenInvestments
  ]

  /** The strict threshold that makes an entry applicable. */
  function Applies(k: TipKind, d: HouseholdData): bool {
    match k
    case LedLighting => d.electricity > 200.0
    case Thermostat => d.electricity > 300.0
    case PublicTransport => d.weeklyDistance > 100.0
    case ElectricVehicle => d.vehicleType == Petrol || d.vehicleType == Diesel
    case ReduceMeat => d.dietType == MeatHeavy || d.dietType == Average
    case LocalFood => true
    case EnergyAudit => d.electricity > 400.0
    case RenewableEnergy => d.electricity > 500.0
    case ReduceFlights => d.flightsShortHaul > 2.0
    case SustainableFashion => d.clothingPurchases > 15.0
    case ReducePackaging => d.onlineOrders > 5.0
    case GreenInvestments => d.investmentType == FossilHeavy
  }

  /** The annual saving an entry estimates, in kg CO2. */
  function Savings(k: TipKind, d: HouseholdData, r: EmissionResults): int {
    match k
    case LedLighting => Round(r.electricity as real * 0.1)
    case Thermostat => Round(r.electricity as real * 0.15)
    case PublicTransport => Round(r.transportation as real * 0.3)
    case ElectricVehicle => Round(r.transportation as real * 0.6)
    case ReduceMeat => Round(r.diet as real * 0.2)
    case LocalFood => Round(r.diet as real * 0.1)
    case EnergyAudit => Round(r.electricity as real * 0.2)
    case RenewableEnergy => Round(r.electricity as real * 0.8)
    case ReduceFlights => Round(d.flightsShortHaul * 200.0 * 0.5)
    case SustainableFashion => Round(d.clothingPurchases * 22.0 * 0.3)
    case ReducePackaging => Round(d.onlineOrders * 12.0 * 2.0)
    case GreenInvestments => 500
  }

  /** One catalogue entry evaluated for a household and its results. */
  function Tip(k: TipKind, d: HouseholdData, r: EmissionResults): EcoTip {
    EcoTip(k, Savings(k, d, r), Applies(k, d))
  }

  /** The entries `kinds` evaluated in order. */
  function Evaluate(kinds: seq<TipKind>, d: HouseholdData, r: EmissionResults): (tips: seq<EcoTip>)
    ensures |tips| == |kinds|
    ensures forall i :: 0 <= i < |kinds| ==> tips[i] == Tip(kinds[i], d, r)
  {
    if kinds == [] then [] else [Tip(kinds[0], d, r)] + Evaluate(kinds[1..], d, r)
  }

  /** The catalogue in declaration order, evaluated for one household and its results. */
  function Catalogue(d: HouseholdData, r: EmissionResults): (c: seq<EcoTip>)
    ensures |c| == |Kinds|
    ensures forall i :: 0 <= i < |c| ==> c[i].kind == Kinds[i] && c[i].applicable == Applies(Kinds[i], d)
  {
    Evaluate(Kinds, d, r)
  }

  /** Distinct entries carry distinct identifiers. */
  lemma IdsDistinct(a: TipKind, b: TipKind)
    requires a != b
    ensures a.Id() != b.Id()
  {
    TipIdRoundTrip(a);
    TipIdRoundTrip(b);
  }

  /** The catalogue entry an identifier names, if any. */
  function TipFromId(id: string): Option<TipKind> {
    match id
    case "led-lighting" => Some(LedLighting)
    case "thermostat" => Some(Thermostat)
    case "public-transport" => Some(PublicTransport)
    case "electric-vehicle" => Some(ElectricVehicle)
    case "reduce-meat" => Some(ReduceMeat)
    case "local-food" => Some(LocalFood)
    case "energy-audit" => Some(EnergyAudit)
    case "renewable-energy" => Some(RenewableEnergy)
    case "reduce-flights" => Some(ReduceFlights)
    case "sustainable-fashion" => Some(SustainableFashion)
    case "reduce-packaging" => Some(ReducePackaging)
    case "green-investments" => Some(GreenInvestments)
    case _ => None
  }

  /** Reading an entry's identifier back gives the entry. */
  lemma TipIdRoundTrip(k: TipKind)
    ensures TipFromId(k.Id()) == Some(k)
  {
    match k
    case LedLighting =>
    case Thermostat =>
    case PublicTransport =>
    case ElectricVehicle =>
    case ReduceMeat =>
    case LocalFood =>
    case EnergyAudit =>
    case RenewableEnergy =>
    case ReduceFlights =>
    case SustainableFashion =>
    case ReducePackaging =>
    case GreenInvestments =>
  }

  /** The sort key: ascending order of the negated savings is descending order of savings. */
  function SavingsKey(t: EcoTip): int {
    -t.potentialSavings
  }

  /** `tips.filter(tip => tip.applicable)`. */
  function ApplicableTips(tips: seq<EcoTip>): (r: seq<EcoTip>)
    ensures forall t :: t in r <==> t in tips && t.applicable
    ensures multiset(r) <= multiset(tips)
    ensures |r| <= |tips|
  {
    if tips == [] then []
    else
      var init, last := tips[..|tips| - 1], tips[|tips| - 1];
      assert tips == init + [last];
      ApplicableTips(init) + (if last.applicable then [last] else [])
  }

  /** Filter, then sort by savings descending. */
  function Recommend(catalogue: seq<EcoTip>): (tips: seq<EcoTip>)
    ensures forall t :: t in tips <==> t in catalogue && t.applicable
    ensures forall i, j :: 0 <= i < j < |tips| ==> tips[i].potentialSavings >= tips[j].potentialSavings
  {
    var applicable := ApplicableTips(catalogue);
    var sorted := SortBy(applicable, SavingsKey);
    SortBySorted(applicable, SavingsKey);
    SortByPermutes(applicable, SavingsKey);
    SameMembers(sorted, applicable);
    sorted
  }

  /** The result is a permutation of the applicable entries. */
  lemma RecommendPermutes(catalogue: seq<EcoTip>)
    ensures multiset(Recommend(catalogue)) == multiset(ApplicableTips(catalogue))
  {
    SortByPermutes(ApplicableTips(catalogue), SavingsKey);
  }

  /** The filter works entry by entry: filtering a join joins the filtered parts, so the
      kept entries stay in catalogue order. */
  lemma {:induction false} FilterAppend(a: seq<EcoTip>, b: seq<EcoTip>)
    ensures ApplicableTips(a + b) == ApplicableTips(a) + ApplicableTips(b)
  {
    if b == [] {
      assert a + b == a;
    } else {
      var init, last := b[..|b| - 1], b[|b| - 1];
      assert (a + b)[..|a + b| - 1] == a + init;
      FilterAppend(a, init);
    }
  }

  /** Filtering and picking the entries of one saving commute. */
  lemma {:induction false} FilterWithKey(c: seq<EcoTip>, k: int)
    ensures WithKey(ApplicableTips(c), SavingsKey, k) == ApplicableTips(WithKey(c, SavingsKey, k))
  {
    if c != [] {
      var init, last := c[..|c| - 1], c[|c| - 1];
      var kept := if last.applicable then [last] else [];
      var picked := if SavingsKey(last) == k then [last] else [];
      FilterWithKey(init, k);
      WithKeyAppend(ApplicableTips(init), kept, SavingsKey, k);
      FilterAppend(WithKey(init, SavingsKey, k), picked);
      if last.applicable {
        WithKeySingleton(last, SavingsKey, k);
      }
      if SavingsKey(last) == k {
        assert ApplicableTips(picked) == ApplicableTips([] + picked);
      }
    }
  }

  /** The sort is stable: tips with equal savings keep their catalogue order, that is, the
      result's tips of one saving are the catalogue's applicable entries of that saving in
      catalogue order. */
  lemma RecommendStable(catalogue: seq<EcoTip>, k: int)
    ensures WithKey(Recommend(catalogue), SavingsKey, k) == WithKey(ApplicableTips(catalogue), SavingsKey, k)
    ensures WithKey(Recommend(catalogue), SavingsKey, k) == ApplicableTips(WithKey(catalogue, SavingsKey, k))
  {
    SortByStable(ApplicableTips(catalogue), SavingsKey, k);
    FilterWithKey(catalogue, k);
  }

  lemma SameMembers(a: seq<EcoTip>, b: seq<EcoTip>)
    requires multiset(a) == multiset(b)
    ensures forall t :: t in a <==> t in b
  {
    assert forall t :: t in a <==> t in multiset(a);
    assert forall t :: t in b <==> t in multiset(b);
  }

  /** `generateEcoTips`: the applicable catalogue entries, largest saving first. */
  function GenerateEcoTips(d: HouseholdData, r: EmissionResults): (tips: seq<EcoTip>)
    ensures forall t :: t in tips <==> t in Catalogue(d, r) && t.applicable
    ensures forall i, j :: 0 <= i < j < |tips| ==> tips[i].potentialSavings >= tips[j].potentialSavings
  {
    Recommend(Catalogue(d, r))
  }

  // ---------------------------------------------------------------------------
  // Properties
  // ---------------------------------------------------------------------------

  predicate DistinctKinds(tips: seq<EcoTip>) {
    forall i, j :: 0 <= i < j < |tips| ==> tips[i].kind != tips[j].kind
  }

  lemma CatalogueDistinctKinds(d: HouseholdData, r: EmissionResults)
    ensures |Catalogue(d, r)| == 12
    ensures DistinctKinds(Catalogue(d, r))
  {
    var c := Catalogue(d, r);
    forall i, j | 0 <= i < j < |c| ensures c[i].kind != c[j].kind {
      assert c[i].kind == Kinds[i] && c[j].kind == Kinds[j];
    }
  }

  /** A sequence with pairwise distinct elements holds each element once. */
  lemma {:induction false} DistinctOnce(s: seq<EcoTip>)
    requires DistinctKinds(s)
    ensures forall t :: multiset(s)[t] <= 1
  {
    if s != [] {
      var init, last := s[..|s| - 1], s[|s| - 1];
      assert s == init + [last];
      DistinctOnce(init);
      assert last !in init;
    }
  }

  /** An element held twice appears twice in the multiset. */
  lemma TwiceInMultiset(s: seq<EcoTip>, i: nat, j: nat)
    requires i < j < |s| && s[i] == s[j]
    ensures multiset(s)[s[i]] >= 2
  {
    assert s == s[..i] + [s[i]] + s[i + 1..j] + [s[j]] + s[j + 1..];
  }

  /** For a catalogue of distinct entries, the result holds each applicable entry exactly
      once and nothing else. */
  lemma RecommendOnce(c: seq<EcoTip>)
    requires DistinctKinds(c)
    ensures forall t :: multiset(Recommend(c))[t] == (if t in c && t.applicable then 1 else 0)
  {
    var tips := Recommend(c);
    DistinctOnce(c);
    RecommendPermutes(c);
    forall t ensures multiset(tips)[t] == (if t in c && t.applicable then 1 else 0) {
      if t in c && t.applicable {
        assert t in tips;
      }
    }
  }

  /** ... so the result of a catalogue of distinct entries repeats no entry and is no longer
      than the catalogue. */
  lemma RecommendDistinct(c: seq<EcoTip>)
    requires DistinctKinds(c)
    ensures DistinctKinds(Recommend(c))
    ensures |Recommend(c)| <= |c|
  {
    var tips := Recommend(c);
    RecommendOnce(c);
    forall i, j | 0 <= i < j < |tips| ensures tips[i].kind != tips[j].kind {
      if tips[i].kind == tips[j].kind {
        var a :| 0 <= a < |c| && c[a] == tips[i];
        var b :| 0 <= b < |c| && c[b] == tips[j];
        assert a == b;
        TwiceInMultiset(tips, i, j);
        assert false;
      }
    }
  }

  /** Every recommended tip is a catalogue entry. */
  lemma RecommendFromCatalogue(c: seq<EcoTip>)
    ensures forall t :: t in Recommend(c) ==> exists i :: 0 <= i < |c| && c[i] == t
  {
  }

  /** The entry that saves strictly the most among the applicable ones comes first. */
  lemma RecommendTop(c: seq<EcoTip>, x: EcoTip)
    requires x in c && x.applicable
    requires forall t :: t in c && t.applicable && t != x ==> t.potentialSavings < x.potentialSavings
    ensures |Recommend(c)| >= 1 && Recommend(c)[0] == x
  {
    var tips := Recommend(c);
    assert x in tips;
    var j :| 0 <= j < |tips| && tips[j] == x;
    assert tips[0] in tips;
    if j > 0 {
      assert tips[0].potentialSavings >= tips[j].potentialSavings;
    }
  }

  /** For a catalogue of distinct entries, an entry is in the result exactly when it is
      applicable. */
  lemma RecommendsEntry(c: seq<EcoTip>, i: nat)
    requires DistinctKinds(c) && i < |c|
    ensures (exists t :: t in Recommend(c) && t.kind == c[i].kind) <==> c[i].applicable
  {
    if exists t :: t in Recommend(c) && t.kind == c[i].kind {
      var t :| t in Recommend(c) && t.kind == c[i].kind;
      var a :| 0 <= a < |c| && c[a] == t;
      assert a == i;
    } else {
      assert c[i] in c;
    }
  }

  /** Whether the result recommends the catalogue entry `kind`. */
  predicate Recommends(d: HouseholdData, r: EmissionResults, kind: TipKind) {
    exists t :: t in GenerateEcoTips(d, r) && t.kind == kind
  }

  /** `generateEcoTips` never repeats a tip and returns at most the twelve entries. */
  lemma TipsDistinct(d: HouseholdData, r: EmissionResults)
    ensures DistinctKinds(GenerateEcoTips(d, r))
    ensures |GenerateEcoTips(d, r)| <= 12
  {
    CatalogueDistinctKinds(d, r);
    RecommendDistinct(Catalogue(d, r));
  }

  /** The result is never empty: `local-food` is always applicable. */
  lemma TipsNonEmpty(d: HouseholdData, r: EmissionResults)
    ensures |GenerateEcoTips(d, r)| >= 1
  {
    var c := Catalogue(d, r);
    assert c[5].kind == LocalFood && c[5].applicable;
    assert c[5] in GenerateEcoTips(d, r);
  }

  /** Each tip is recommended exactly when its strict threshold is passed. */
  lemma TipApplicability(d: HouseholdData, r: EmissionResults)
    ensures Recommends(d, r, LedLighting) <==> d.electricity > 200.0
    ensures Recommends(d, r, Thermostat) <==> d.electricity > 300.0
    ensures Recommends(d, r, EnergyAudit) <==> d.electricity > 400.0
    ensures Recommends(d, r, RenewableEnergy) <==> d.electricity > 500.0
    ensures Recommends(d, r, PublicTransport) <==> d.weeklyDistance > 100.0
    ensures Recommends(d, r, ElectricVehicle) <==> d.vehicleType == Petrol || d.vehicleType == Diesel
    ensures Recommends(d, r, ReduceMeat) <==> d.dietType == MeatHeavy || d.dietType == Average
    ensures Recommends(d, r, LocalFood)
    ensures Recommends(d, r, ReduceFlights) <==> d.flightsShortHaul > 2.0
    ensures Recommends(d, r, SustainableFashion) <==> d.clothingPurchases > 15.0
    ensures Recommends(d, r, ReducePackaging) <==> d.onlineOrders > 5.0
    ensures Recommends(d, r, GreenInvestments) <==> d.investmentType == FossilHeavy
  {
    RecommendedWhenApplicable(d, r, LedLighting);
    RecommendedWhenApplicable(d, r, Thermostat);
    RecommendedWhenApplicable(d, r, EnergyAudit);
    RecommendedWhenApplicable(d, r, RenewableEnergy);
    RecommendedWhenApplicable(d, r, PublicTransport);
    RecommendedWhenApplicable(d, r, ElectricVehicle);
    RecommendedWhenApplicable(d, r, ReduceMeat);
    RecommendedWhenApplicable(d, r, LocalFood);
    RecommendedWhenApplicable(d, r, ReduceFlights);
    RecommendedWhenApplicable(d, r, SustainableFashion);
    RecommendedWhenApplicable(d, r, ReducePackaging);
    RecommendedWhenApplicable(d, r, GreenInvestments);
  }

  /** An entry is recommended exactly when it is applicable. */
  lemma RecommendedWhenApplicable(d: HouseholdData, r: EmissionResults, k: TipKind)
    ensures Recommends(d, r, k) <==> Applies(k, d)
  {
    var c := Catalogue(d, r);
    CatalogueDistinctKinds(d, r);
    assert k in Kinds;
    var i :| 0 <= i < |Kinds| && Kinds[i] == k;
    RecommendsEntry(c, i);
  }

  /** A saving is never negative when the result buckets and the counts are not. */
  lemma TipSavingsNonNegative(k: TipKind, d: HouseholdData, r: EmissionResults)
    requires r.electricity >= 0 && r.transportation >= 0 && r.diet >= 0
    requires d.flightsShortHaul >= 0.0 && d.clothingPurchases >= 0.0 && d.onlineOrders >= 0.0
    ensures Savings(k, d, r) >= 0
    ensures k == GreenInvestments ==> Savings(k, d, r) == 500
  {
  }

  /** Every recommended saving is non-negative under the same conditions, and the investment
      tip's saving is a fixed 500. */
  lemma SavingsNonNegative(d: HouseholdData, r: EmissionResults)
    requires r.electricity >= 0 && r.transportation >= 0 && r.diet >= 0
    requires d.flightsShortHaul >= 0.0 && d.clothingPurchases >= 0.0 && d.onlineOrders >= 0.0
    ensures forall t :: t in GenerateEcoTips(d, r) ==> t.potentialSavings >= 0
    ensures forall t :: t in GenerateEcoTips(d, r) && t.kind == GreenInvestments ==> t.potentialSavings == 500
  {
    var c := Catalogue(d, r);
    RecommendFromCatalogue(c);
    forall t | t in GenerateEcoTips(d, r)
      ensures t.potentialSavings >= 0
      ensures t.kind == GreenInvestments ==> t.potentialSavings == 500
    {
      var i :| 0 <= i < |c| && c[i] == t;
      TipSavingsNonNegative(Kinds[i], d, r);
    }
  }
}
