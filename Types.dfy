/** The records the calculator passes between its pages and utilities. */
module Types {
  import opened Wrappers
  import opened Quotients

  datatype VehicleType = Petrol | Diesel | Electric | Hybrid
  datatype DietType = Vegan | Vegetarian | Average | MeatHeavy
  datatype StreamingQuality = SD | HD | UHD4K
  datatype DeliveryPreference = Eco | Standard | Express
  datatype InvestmentType = Green | Neutral | FossilHeavy
  datatype EventAttendance = InPerson | Virtual | Mixed

  /** One household's self-reported activity. Quantities are JavaScript numbers, modelled
      as exact reals; the units are those of the form (per month, per week, per year). */
  datatype HouseholdData = HouseholdData(
    // household and utilities
    electricity: real,          // kWh per month
    naturalGas: real,           // therms per month
    lpgUsage: real,             // kg per month
    waterUsage: real,           // litres per day
    wasteGeneration: real,      // kg per week
    recyclingRate: real,        // percent
    // transportation
    weeklyDistance: real,       // km per week
    vehicleType: VehicleType,
    monthlyFuel: real,          // litres per month
    publicTransport: real,      // km per week
    flightsShortHaul: real,     // per year
    flightsLongHaul: real,      // per year
    rideshareUsage: real,       // km per month
    evCharging: real,           // kWh per month
    // food and diet
    dietType: DietType,
    foodWaste: real,            // kg per month
    localOrganicFood: real,     // percent; enters no formula
    mealsOut: real,             // per week
    // goods and services
    clothingPurchases: real,    // items per year
    electronicsPurchases: real, // items per year
    furnitureSpending: real,    // currency per year
    streamingHours: real,       // hours per month
    streamingQuality: StreamingQuality,
    // shopping and lifestyle
    onlineOrders: real,         // packages per month
    packagingWaste: real,       // kg per month
    deliveryPreference: DeliveryPreference, // enters no formula
    // finance and digital
    investmentType: InvestmentType,
    dataUsage: real,            // GB per month
    cryptoTransactions: real,   // per month
    // leisure and travel
    hotelNights: real,          // per year
    eventAttendance: EventAttendance, // enters no formula
    recreationalDriving: real,  // km per month
    // basic info
    householdSize: real,
    location: Option<string>
  )

  /** The rounded annual emissions (kg CO2) of one household. `electricity` holds the
      whole utilities bucket; `perPerson` is infinite or NaN for a household of size 0. */
  datatype EmissionResults = EmissionResults(
    electricity: int,
    transportation: int,
    diet: int,
    goods: int,
    digital: int,
    travel: int,
    total: int,
    perPerson: Number
  )

  datatype Level = Bronze | Silver | Gold | Platinum

  datatype CriterionType = FootprintCriterion | ReductionCriterion | ConsistencyCriterion | ChallengeCriterion

  datatype Criteria = Criteria(kind: CriterionType, threshold: int)

  /** The nine badges the system awards. Each fixes its identifier, name, description,
      icon, level and criterion; only the award timestamp varies. */
  datatype BadgeKind =
    | ClimateHero | EcoChampion | GreenGuardian | EcoStarter
    | SuperReducer | EmissionCutter | ProgressMaker
    | ConsistentTracker | YearLongChampion
  {
    function Id(): string {
      match this
      case ClimateHero => "climate-hero"
      case EcoChampion => "eco-champion"
      case GreenGuardian => "green-guardian"
      case EcoStarter => "eco-starter"
      case SuperReducer => "super-reducer"
      case EmissionCutter => "emission-cutter"
      case ProgressMaker => "progress-maker"
      case ConsistentTracker => "consistent-tracker"
      case YearLongChampion => "year-long-champion"
    }

    function Name(): string {
      match this
      case ClimateHero => "Climate Hero"
      case EcoChampion => "Eco Champion"
      case GreenGuardian => "Green Guardian"
      case EcoStarter => "Eco Starter"
      case SuperReducer => "Super Reducer"
      case EmissionCutter => "Emission Cutter"
      case ProgressMaker => "Progress Maker"
      case ConsistentTracker => "Consistent Tracker"
      case YearLongChampion => "Year-Long Champion"
    }

    function Description(): string {
      match this
      case ClimateHero => "Achieved under 1.5 tons CO\U{2082} per person annually"
      case EcoChampion => "Achieved under 2.3 tons CO\U{2082} per person annually"
      case GreenGuardian => "Below global average footprint"
      case EcoStarter => "Started your sustainability journey"
      case SuperReducer => "Reduced emissions by 30% or more"
      case EmissionCutter => "Reduced emissions by 15% or more"
      case ProgressMaker => "Reduced emissions by 5% or more"
      case ConsistentTracker => "Tracked emissions for 6+ months"
      case YearLongChampion => "Tracked emissions for a full year"
    }

    function Icon(): string {
      match this
      case ClimateHero => "\U{1F31F}"
      case EcoChampion => "\U{1F3C6}"
      case GreenGuardian => "\U{1F948}"
      case EcoStarter => "\U{1F949}"
      case SuperReducer => "\U{26A1}"
      case EmissionCutter => "\U{2702}\U{FE0F}"
      case ProgressMaker => "\U{1F4C8}"
      case ConsistentTracker => "\U{1F4CA}"
      case YearLongChampion => "\U{1F5D3}\U{FE0F}"
    }

    function Tier(): Level {
      match this
      case ClimateHero => Platinum
      case EcoChampion | SuperReducer | YearLongChampion => Gold
      case GreenGuardian | EmissionCutter | ConsistentTracker => Silver
      case EcoStarter | ProgressMaker => Bronze
    }

    function Criterion(): Criteria {
      match this
      case ClimateHero => Criteria(FootprintCriterion, 1500)
      case EcoChampion => Criteria(FootprintCriterion, 2300)
      case GreenGuardian => Criteria(FootprintCriterion, 4800)
      case EcoStarter => Criteria(FootprintCriterion, 8000)
      case SuperReducer => Criteria(ReductionCriterion, 30)
      case EmissionCutter => Criteria(ReductionCriterion, 15)
      case ProgressMaker => Criteria(ReductionCriterion, 5)
      case ConsistentTracker => Criteria(ConsistencyCriterion, 6)
      case YearLongChampion => Criteria(ConsistencyCriterion, 12)
    }
  }

  /** An awarded badge: which one, and when. */
  datatype Badge = Badge(kind: BadgeKind, earnedDate: string)

  /** One tracked observation; `date` is the timestamp its ISO date string parses to. */
  datatype MonthlyEntry = MonthlyEntry(id: string, date: int, data: HouseholdData, results: EmissionResults)

  datatype Role = Admin | Member

  /** A household member. The optional per-member `personalData` is not part of this model. */
  datatype User = User(id: string, name: string, role: Role, avatar: Option<string>)

  datatype Household = Household(
    id: string,
    name: string,
    members: seq<User>,
    monthlyEntries: seq<MonthlyEntry>,
    badges: seq<Badge>,
    totalPoints: int
  )

  datatype ChallengeCategory = Energy | Transport | DietCategory | General

  datatype Challenge = Challenge(
    id: string,
    title: string,
    description: string,
    category: ChallengeCategory,
    points: int,
    duration: int,   // days
    target: int,
    completed: bool,
    assignedTo: Option<seq<string>>
  )

  datatype Language = En | Hi | Te | Es | Fr | De

  datatype Theme = Light | Dark
}
