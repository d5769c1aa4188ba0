/** The calculator form: its default answers, field-by-field editing, validation and the
    hand-off of valid answers to the results page. */
module InputForm {
  import opened Wrappers
  import opened Types
  import Calculations

  /** The form's fields, one per answer. */
  datatype Field =
    | Electricity | NaturalGas | LpgUsage | WaterUsage | WasteGeneration | RecyclingRate
    | WeeklyDistance | Vehicle | MonthlyFuel | PublicTransport | FlightsShortHaul
    | FlightsLongHaul | RideshareUsage | EvCharging
    | Diet | FoodWaste | LocalOrganicFood | MealsOut
    | ClothingPurchases | ElectronicsPurchases | FurnitureSpending | StreamingHours | Streaming
    | OnlineOrders | PackagingWaste | Delivery
    | Investment | DataUsage | CryptoTransactions
    | HotelNights | Events | RecreationalDriving
    | HouseholdSize | Location

  /** A value typed into a field. */
  datatype FieldValue =
    | Number(n: real)
    | VehicleChoice(vehicle: VehicleType)
    | DietChoice(diet: DietType)
    | QualityChoice(quality: StreamingQuality)
    | DeliveryChoice(delivery: DeliveryPreference)
    | InvestmentChoice(investment: InvestmentType)
    | EventChoice(event: EventAttendance)
    | Text(text: string)

  /** Which values a field accepts: a choice for the six choice fields, a string for the
      location and a number for every other field. */
  predicate Accepts(field: Field, value: FieldValue) {
    match field
    case Vehicle => value.VehicleChoice?
    case Diet => value.DietChoice?
    case Streaming => value.QualityChoice?
    case Delivery => value.DeliveryChoice?
    case Investment => value.InvestmentChoice?
    case Events => value.EventChoice?
    case Location => value.Text?
    case _ => value.Number?
  }

  /** The current value of one field. */
  function Get(d: HouseholdData, field: Field): (v: FieldValue)
    ensures Accepts(field, v)
  {
    match field
    case Electricity => Number(d.electricity)
    case NaturalGas => Number(d.naturalGas)
    case LpgUsage => Number(d.lpgUsage)
    case WaterUsage => Number(d.waterUsage)
    case WasteGeneration => Number(d.wasteGeneration)
    case RecyclingRate => Number(d.recyclingRate)
    case WeeklyDistance => Number(d.weeklyDistance)
    case Vehicle => VehicleChoice(d.vehicleType)
    case MonthlyFuel => Number(d.monthlyFuel)
    case PublicTransport => Number(d.publicTransport)
    case FlightsShortHaul => Number(d.flightsShortHaul)
    case FlightsLongHaul => Number(d.flightsLongHaul)
    case RideshareUsage => Number(d.rideshareUsage)
    case EvCharging => Number(d.evCharging)
    case Diet => DietChoice(d.dietType)
    case FoodWaste => Number(d.foodWaste)
    case LocalOrganicFood => Number(d.localOrganicFood)
    case MealsOut => Number(d.mealsOut)
    case ClothingPurchases => Number(d.clothingPurchases)
    case ElectronicsPurchases => Number(d.electronicsPurchases)
    case FurnitureSpending => Number(d.furnitureSpending)
    case StreamingHours => Number(d.streamingHours)
    case Streaming => QualityChoice(d.streamingQuality)
    case OnlineOrders => Number(d.onlineOrders)
    case PackagingWaste => Number(d.packagingWaste)
    case Delivery => DeliveryChoice(d.deliveryPreference)
    case Investment => InvestmentChoice(d.investmentType)
    case DataUsage => Number(d.dataUsage)
    case CryptoTransactions => Number(d.cryptoTransactions)
    case HotelNights => Number(d.hotelNights)
    case Events => EventChoice(d.eventAttendance)
    case RecreationalDriving => Number(d.recreationalDriving)
    case HouseholdSize => Number(d.householdSize)
    case Location => Text(d.location.GetOr(""))
  }

  /** `{ ...prev, [field]: value }`. */
  function Set(d: HouseholdData, field: Field, value: FieldValue): HouseholdData
    requires Accepts(field, value)
  {
    match field
    case Electricity => d.(electricity := value.n)
    case NaturalGas => d.(naturalGas := value.n)
    case LpgUsage => d.(lpgUsage := value.n)
    case WaterUsage => d.(waterUsage := value.n)
    case WasteGeneration => d.(wasteGeneration := value.n)
    case RecyclingRate => d.(recyclingRate := value.n)
    case WeeklyDistance => d.(weeklyDistance := value.n)
    case Vehicle => d.(vehicleType := value.vehicle)
    case MonthlyFuel => d.(monthlyFuel := value.n)
    case PublicTransport => d.(publicTransport := value.n)
    case FlightsShortHaul => d.(flightsShortHaul := value.n)
    case FlightsLongHaul => d.(flightsLongHaul := value.n)
    case RideshareUsage => d.(rideshareUsage := value.n)
    case EvCharging => d.(evCharging := value.n)
    case Diet => d.(dietType := value.diet)
    case FoodWaste => d.(foodWaste := value.n)
    case LocalOrganicFood => d.(localOrganicFood := value.n)
    case MealsOut => d.(mealsOut := value.n)
    case ClothingPurchases => d.(clothingPurchases := value.n)
    case ElectronicsPurchases => d.(electronicsPurchases := value.n)
    case FurnitureSpending => d.(furnitureSpending := value.n)
    case StreamingHours => d.(streamingHours := value.n)
    case Streaming => d.(streamingQuality := value.quality)
    case OnlineOrders => d.(onlineOrders := value.n)
    case PackagingWaste => d.(packagingWaste := value.n)
    case Delivery => d.(deliveryPreference := value.delivery)
    case Investment => d.(investmentType := value.investment)
    case DataUsage => d.(dataUsage := value.n)
    case CryptoTransactions => d.(cryptoTransactions := value.n)
    case HotelNights => d.(hotelNights := value.n)
    case Events => d.(eventAttendance := value.event)
    case RecreationalDriving => d.(recreationalDriving := value.n)
    case HouseholdSize => d.(householdSize := value.n)
    case Location => d.(location := Some(value.text))
  }

  /** Editing a field changes that field to the value typed and no other field. */
  lemma SetOnlyNamedField(d: HouseholdData, field: Field, value: FieldValue, other: Field)
    requires Accepts(field, value)
    ensures Get(Set(d, field, value), field) == value
    ensures other != field ==> Get(Set(d, field, value), other) == Get(d, other)
  {
    SetReadsBack(d, field, value);
    if other != field {
      SetKeepsOther(d, field, value, other);
    }
  }

  lemma SetReadsBack(d: HouseholdData, field: Field, value: FieldValue)
    requires Accepts(field, value)
    ensures Get(Set(d, field, value), field) == value
  {
  }

  /** Proof helper for `SetOnlyNamedField`: a change leaves every other field. The fields are
      split into groups below (helpers too) to keep each proof small. */
  lemma SetKeepsOther(d: HouseholdData, field: Field, value: FieldValue, other: Field)
    requires Accepts(field, value) && other != field
    ensures Get(Set(d, field, value), other) == Get(d, other)
  {
    if field in {Electricity, NaturalGas, LpgUsage} {
      SetKeepsOtherEnergy(d, field, value, other);
    } else if field in {WaterUsage, WasteGeneration, RecyclingRate} {
      SetKeepsOtherWaste(d, field, value, other);
    } else if field in {WeeklyDistance, Vehicle, MonthlyFuel, PublicTransport} {
      SetKeepsOtherDriving(d, field, value, other);
    } else if field in {FlightsShortHaul, FlightsLongHaul, RideshareUsage, EvCharging} {
      SetKeepsOtherTrips(d, field, value, other);
    } else if field in {Diet, FoodWaste, LocalOrganicFood, MealsOut} {
      SetKeepsOtherDiet(d, field, value, other);
    } else if field in {ClothingPurchases, ElectronicsPurchases, FurnitureSpending} {
      SetKeepsOtherPurchases(d, field, value, other);
    } else if field in {StreamingHours, Streaming} {
      SetKeepsOtherStreaming(d, field, value, other);
    } else if field in {OnlineOrders, PackagingWaste, Delivery} {
      SetKeepsOtherDelivery(d, field, value, other);
    } else if field in {Investment, DataUsage, CryptoTransactions} {
      SetKeepsOtherDigital(d, field, value, other);
    } else if field in {HotelNights, Events, RecreationalDriving} {
      SetKeepsOtherLeisure(d, field, value, other);
    } else {
      SetKeepsOtherHousehold(d, field, value, other);
    }
  }

  lemma SetKeepsOtherEnergy(d: HouseholdData, field: Field, value: FieldValue, other: Field)
    requires Accepts(field, value) && other != field
    requires field in {Electricity, NaturalGas, LpgUsage}
    ensures Get(Set(d, field, value), other) == Get(d, other)
  {
  }

  lemma SetKeepsOtherWaste(d: HouseholdData, field: Field, value: FieldValue, other: Field)
    requires Accepts(field, value) && other != field
    requires field in {WaterUsage, WasteGeneration, RecyclingRate}
    ensures Get(Set(d, field, value), other) == Get(d, other)
  {
  }

  lemma SetKeepsOtherDriving(d: HouseholdData, field: Field, value: FieldValue, other: Field)
    requires Accepts(field, value) && other != field
    requires field in {WeeklyDistance, Vehicle, MonthlyFuel, PublicTransport}
    ensures Get(Set(d, field, value), other) == Get(d, other)
  {
  }

  lemma SetKeepsOtherTrips(d: HouseholdData, field: Field, value: FieldValue, other: Field)
    requires Accepts(field, value) && other != field
    requires field in {FlightsShortHaul, FlightsLongHaul, RideshareUsage, EvCharging}
    ensures Get(Set(d, field, value), other) == Get(d, other)
  {
  }

  lemma SetKeepsOtherDiet(d: HouseholdData, field: Field, value: FieldValue, other: Field)
    requires Accepts(field, value) && other != field
    requires field in {Diet, FoodWaste, LocalOrganicFood, MealsOut}
    ensures Get(Set(d, field, value), other) == Get(d, other)
  {
  }

  lemma SetKeepsOtherPurchases(d: HouseholdData, field: Field, value: FieldValue, other: Field)
    requires Accepts(field, value) && other != field
    requires field in {ClothingPurchases, ElectronicsPurchases, FurnitureSpending}
    ensures Get(Set(d, field, value), other) == Get(d, other)
  {
  }

  lemma SetKeepsOtherStreaming(d: HouseholdData, field: Field, value: FieldValue, other: Field)
    requires Accepts(field, value) && other != field
    requires field in {StreamingHours, Streaming}
    ensures Get(Set(d, field, value), other) == Get(d, other)
  {
  }

  lemma SetKeepsOtherDelivery(d: HouseholdData, field: Field, value: FieldValue, other: Field)
    requires Accepts(field, value) && other != field
    requires field in {OnlineOrders, PackagingWaste, Delivery}
    ensures Get(Set(d, field, value), other) == Get(d, other)
  {
  }

  lemma SetKeepsOtherDigital(d: HouseholdData, field: Field, value: FieldValue, other: Field)
    requires Accepts(field, value) && other != field
    requires field in {Investment, DataUsage, CryptoTransactions}
    ensures Get(Set(d, field, value), other) == Get(d, other)
  {
  }

  lemma SetKeepsOtherLeisure(d: HouseholdData, field: Field, value: FieldValue, other: Field)
    requires Accepts(field, value) && other != field
    requires field in {HotelNights, Events, RecreationalDriving}
    ensures Get(Set(d, field, value), other) == Get(d, other)
  {
  }

  lemma SetKeepsOtherHousehold(d: HouseholdData, field: Field, value: FieldValue, other: Field)
    requires Accepts(field, value) && other != field
    requires field in {HouseholdSize, Location}
    ensures Get(Set(d, field, value), other) == Get(d, other)
  {
  }

  /** The form's opening answers; the location is the one the application state holds. */
  function DefaultFormData(userLocation: string): (d: HouseholdData)
    ensures d.location == Some(userLocation)
    ensures d.householdSize == 2.0
  {
    HouseholdData(
      300.0, 50.0, 15.0, 150.0, 10.0, 30.0,
      200.0, Petrol, 60.0, 20.0, 2.0, 1.0, 50.0, 0.0,
      Average, 5.0, 20.0, 3.0,
      20.0, 2.0, 5000.0, 30.0, HD,
      8.0, 3.0, Standard,
      Neutral, 50.0, 0.0,
      5.0, Mixed, 100.0,
      2.0, Some(userLocation))
  }

  // ---------------------------------------------------------------------------
  // Validation
  // ---------------------------------------------------------------------------

  /** The three fields `validateForm` checks. */
  const CheckedFields: set<Field> := {Electricity, WeeklyDistance, HouseholdSize}

  /** The message shown under a field whose check fails; the other fields have none. */
  function Message(field: Field): (m: string)
    ensures m != "" <==> field in CheckedFields
  {
    match field
    case Electricity => "Electricity usage must be greater than 0"
    case WeeklyDistance => "Distance cannot be negative"
    case HouseholdSize => "Household size must be at least 1"
    case _ => ""
  }

  /** The errors `validateForm` reports: exactly the checked fields whose check fails, each
      with its non-empty message. */
  function ValidationErrors(d: HouseholdData): (errors: map<Field, string>)
    ensures Electricity in errors <==> d.electricity <= 0.0
    ensures WeeklyDistance in errors <==> d.weeklyDistance < 0.0
    ensures HouseholdSize in errors <==> d.householdSize <= 0.0
    ensures errors.Keys <= CheckedFields
  {
    var electricity: map<Field, string> := if d.electricity <= 0.0 then map[Electricity := Message(Electricity)] else map[];
    var distance := if d.weeklyDistance < 0.0 then electricity[WeeklyDistance := Message(WeeklyDistance)] else electricity;
    if d.householdSize <= 0.0 then distance[HouseholdSize := Message(HouseholdSize)] else distance
  }

  /** Each reported error carries its field's message, and no message is empty. */
  lemma ErrorsAreMessages(d: HouseholdData)
    ensures forall f :: f in ValidationErrors(d) ==> ValidationErrors(d)[f] == Message(f) != ""
  {
    var errors := ValidationErrors(d);
    forall f | f in errors ensures errors[f] == Message(f) {
      if f == Electricity {
      } else if f == WeeklyDistance {
      } else {
        assert f == HouseholdSize;
      }
    }
  }

  /** Answers pass exactly when electricity is positive, the distance is not negative and
      the household is not empty; such answers can always be estimated. */
  lemma ValidIff(d: HouseholdData)
    ensures ValidationErrors(d) == map[] <==>
              d.electricity > 0.0 && d.weeklyDistance >= 0.0 && d.householdSize > 0.0
    ensures ValidationErrors(d) == map[] ==> d.householdSize > 0.0
  {
    if d.electricity <= 0.0 {
      assert Electricity in ValidationErrors(d);
    } else if d.weeklyDistance < 0.0 {
      assert WeeklyDistance in ValidationErrors(d);
    } else if d.householdSize <= 0.0 {
      assert HouseholdSize in ValidationErrors(d);
    }
  }

  /** No other field is checked: changing an unchecked field never changes the verdict. */
  lemma UncheckedFieldsIgnored(d: HouseholdData, field: Field, value: FieldValue)
    requires Accepts(field, value) && field !in CheckedFields
    ensures ValidationErrors(Set(d, field, value)) == ValidationErrors(d)
  {
    var d' := Set(d, field, value);
    assert d'.electricity == d.electricity && d'.weeklyDistance == d.weeklyDistance
        && d'.householdSize == d.householdSize;
  }

  /** The default answers pass validation. */
  lemma DefaultsAreValid(userLocation: string)
    ensures ValidationErrors(DefaultFormData(userLocation)) == map[]
  {
    ValidIff(DefaultFormData(userLocation));
  }

  // ---------------------------------------------------------------------------
  // The page
  // ---------------------------------------------------------------------------

  /** The form's state and what it leaves behind for the results page. */
  class InputFormPage {
    var formData: HouseholdData
    var errors: map<Field, string>
    /** The answers stored for the results page, if any were submitted. */
    var saved: Option<HouseholdData>
    var navigatedToResults: bool

    constructor(userLocation: string, stored: Option<HouseholdData>)
      ensures formData == DefaultFormData(userLocation) && errors == map[]
      ensures saved == stored && !navigatedToResults
    {
      formData := DefaultFormData(userLocation);
      errors := map[];
      saved := stored;
      navigatedToResults := false;
    }

    /** `handleInputChange`: store the value; if the field had an error, clear that error. */
    method HandleInputChange(field: Field, value: FieldValue)
      requires Accepts(field, value)
      modifies this
      ensures formData == Set(old(formData), field, value)
      ensures errors == if field in old(errors) && old(errors)[field] != "" then old(errors) - {field} else old(errors)
      ensures saved == old(saved) && navigatedToResults == old(navigatedToResults)
    {
      formData := Set(formData, field, value);
      if field in errors && errors[field] != "" {
        errors := errors - {field};
      }
    }

    /** `validateForm`: rebuild the errors from scratch, one check at a time. */
    method ValidateForm() returns (valid: bool)
      modifies this
      ensures errors == ValidationErrors(formData)
      ensures valid <==> errors == map[]
      ensures formData == old(formData) && saved == old(saved)
      ensures navigatedToResults == old(navigatedToResults)
    {
      var newErrors: map<Field, string> := map[];
      if formData.electricity <= 0.0 {
        newErrors := newErrors[Electricity := Message(Electricity)];
      }
      if formData.weeklyDistance < 0.0 {
        newErrors := newErrors[WeeklyDistance := Message(WeeklyDistance)];
      }
      if formData.householdSize <= 0.0 {
        newErrors := newErrors[HouseholdSize := Message(HouseholdSize)];
      }
      errors := newErrors;
      valid := |newErrors| == 0;
    }

    /** `handleSubmit`: valid answers are stored and the results page opened; invalid ones
        only show their errors. */
    method HandleSubmit()
      modifies this
      ensures errors == ValidationErrors(formData) && formData == old(formData)
      ensures errors == map[] ==> saved == Some(formData) && navigatedToResults
      ensures errors != map[] ==> saved == old(saved) && navigatedToResults == old(navigatedToResults)
      ensures saved.Some? && saved != old(saved) ==> saved.value.householdSize > 0.0
    {
      var valid := ValidateForm();
      if valid {
        saved := Some(formData);
        navigatedToResults := true;
      }
      ValidIff(formData);
    }
  }
}
