# Carbon footprint calculator — a verified model of its core

The calculator asks a household about its electricity, heating, travel, diet, shopping,
digital habits and leisure. It turns the answers into annual CO2 estimates in six buckets.
From the estimate it:

- recommends eco tips, best saving first;
- awards badges for a low footprint, for a month-on-month reduction and for steady tracking,
  and scores them in points;
- keeps a date-ordered monthly history with a trend;
- lets a family add members, share challenges, assign members to them and complete them.

This project models that core in Dafny and proves what the code promises.

## How the model is organised

- `Wrappers`: the `Option` type.
- `Quotients`: JavaScript numbers where a quotient needs them.
  - A division by zero gives an infinity or NaN instead of failing.
  - Every comparison with NaN is false.
  - Used by the per-person figure, the trend and the reduction badge.
- `Types`: the records passed between pages.
  - The household answers, the results, entries, users, households, badges and challenges.
- `Countries`: the table of 25 regional grid factors and the lookup by code.
- `Calculations`: the estimator.
  - Each bucket is a function of the answers.
  - `CalculateEmissions` rounds each bucket and rounds the unrounded grand total.
  - `EmissionProperties` proves its monotonicity, sign and lower-bound properties.
- `StableSort`: a stable insertion sort by an integer key, with sortedness, permutation and
  stability proofs. JavaScript's `Array.prototype.sort` is stable, and both the eco-tip ranking
  and the tracker's date order rely on that.
- `EcoTips`: the twelve catalogue entries, their applicability and savings, and the filter and
  sort that `generateEcoTips` applies.
- `BadgeSystem`:
  - The badges a history earns, as a specification function.
  - The imperative `CalculateBadges`, proved equal to it.
  - The points a list of badges is worth.
- `Tracker`, `InputForm`, `Family`: the pages whose handlers change state. Each is a class whose
  methods are proved against pure functions. `AppContext` is the reducer and the translation
  lookup.
- `DefaultScenario`: the calculator's opening answers carried through the estimator and the
  tip engine.

Timestamps, identifiers made from the clock, and stored data are parameters. The stored data
is the saved form, the saved history and the saved challenges. The tracker opens on the saved
history; only `addEntry` writes that history, always date-ordered, so the tracker page keeps
its history date-ordered through every handler.

## Model

| member | source | states |
|---|---|---|
| Countries.Find | src/data/countries.ts:31-33 | a row of the list, or none exactly when no row has the code |
| Countries.GetCountryByCode | src/data/countries.ts:31-33 | a result is a table row with that code; none exactly when no row has the code |
| Countries.CodesDistinct | src/data/countries.ts:3-29 | no two rows of the table share a code |
| Countries.LookupUnique | src/data/countries.ts:3-33 | looking up any row's code returns that row |
| Countries.FactorsPositive | src/data/countries.ts:3-29 | every grid factor in the table is positive |
| Countries.NoLowerCaseCode | src/data/countries.ts:3-29 | no code in the table is the lower-case "us" |
| Countries.DefaultLocationResolves | src/data/countries.ts:4 | "US" finds the United States at 0.855; the lookup is case-sensitive, so "us" finds nothing |
| Calculations.VehicleFactor | src/utils/calculations.ts:12-17 | the per-km factor lies between electric's 0.053 and petrol's 0.271, and only electric has the lowest |
| Calculations.DietFactor | src/utils/calculations.ts:18-23 | the per-person diet baseline lies between vegan's 1500 and meat-heavy's 3300, and only vegan has the lowest |
| Calculations.StreamingFactor | src/utils/calculations.ts:28-32 | the per-hour factor lies between SD's 0.0036 and 4K's 0.0108, three times SD |
| Calculations.Round | src/utils/calculations.ts:99-108 | `Math.round`: the result is within half a unit, halves rounding up |
| Calculations.RoundMonotone | src/utils/calculations.ts:99-108 | rounding preserves order |
| Calculations.LocationCode | src/utils/calculations.ts:48 | the code looked up is never empty: the given code, or "US" |
| Calculations.ElectricityFactor | src/utils/calculations.ts:47-49 | the grid factor used is always positive |
| Calculations.ElectricityFactorResolution | src/utils/calculations.ts:47-49 | an unknown code falls back to 0.92; a known code uses its row's factor; the factor is 0.92 exactly when the code is unknown |
| Calculations.NoRowUsesDefault | src/data/countries.ts:3-29 | no table row carries the fallback factor 0.92 |
| Calculations.USFactor | src/data/countries.ts:4 | the United States row is found and carries 0.855 |
| Calculations.MissingLocationIsUS | src/utils/calculations.ts:48 | a missing or empty location counts as "US", at 0.855 |
| Calculations.PerPerson | src/utils/calculations.ts:99 | for a non-zero size, a whole number within half a unit of total / size, which brackets the total for a positive size; for size 0, +Infinity, -Infinity or NaN by the total's sign |
| Calculations.CalculateEmissions | src/utils/calculations.ts:46-111 | the rounded total is within 3 of the sum of the six rounded buckets; per-person is the rounded quotient of the unrounded total |
| Calculations.PerPersonBounds | src/utils/calculations.ts:99 | the rounded quotient, times a positive size, brackets the total within half a size |
| EmissionProperties.GasCountsAsElectricity | src/utils/calculations.ts:55-102 | gas is reported in the `electricity` result: one therm a month alone gives 64 |
| EmissionProperties.ZeroActivity | src/utils/calculations.ts:71-108 | with no activity, only the diet baseline times the household size remains, at least 1500 |
| EmissionProperties.WasteNetNonNegative | src/utils/calculations.ts:58-59 | at recycling rates up to 250 %, net waste emissions are not negative |
| EmissionProperties.UtilitiesBucketNonNegative | src/utils/calculations.ts:52-91 | non-negative answers with a recycling rate of at most 100 give a non-negative utilities bucket |
| EmissionProperties.UtilitiesNonNegative | src/utils/calculations.ts:91-102 | ... and a non-negative rounded `electricity` result |
| EmissionProperties.UtilitiesUnclamped | src/utils/calculations.ts:59-102 | nothing clamps the bucket: 10 kg of waste at a 300 % rate gives -52 |
| EmissionProperties.RecyclingBucketMonotone | src/utils/calculations.ts:59-91 | a higher recycling rate never raises the utilities bucket |
| EmissionProperties.RecyclingMonotone | src/utils/calculations.ts:59-102 | ... nor the rounded result |
| EmissionProperties.UtilitiesBucketMonotone | src/utils/calculations.ts:52-91 | more electricity, gas, LPG, water or waste never lowers the unrounded utilities bucket |
| EmissionProperties.UtilitiesMonotone | src/utils/calculations.ts:52-102 | more electricity, gas, LPG, water or waste never lowers the rounded utilities result |
| EmissionProperties.TransportationBucketMonotone | src/utils/calculations.ts:62-92 | more distance, fuel, transit, flights, rideshare, charging or leisure driving never lowers the unrounded transport bucket |
| EmissionProperties.TransportationMonotone | src/utils/calculations.ts:62-103 | the same growth never lowers the rounded transport result |
| EmissionProperties.DietMonotone | src/utils/calculations.ts:71-104 | a larger household, more food waste or more meals out never lowers the diet result |
| EmissionProperties.GoodsMonotone | src/utils/calculations.ts:76-105 | more clothes, electronics, furniture or streaming never lowers the goods result |
| EmissionProperties.DigitalMonotone | src/utils/calculations.ts:82-106 | more packaging, data or crypto never lowers the digital result |
| EmissionProperties.TravelMonotone | src/utils/calculations.ts:87-107 | more hotel nights never lowers the travel result |
| EmissionProperties.UnroundedTotalAtLeastBaseline | src/utils/calculations.ts:71-98 | non-negative answers for at least one person give an unrounded total of at least 1500 |
| EmissionProperties.TotalPositive | src/utils/calculations.ts:98-108 | ... and a rounded total of at least 1500 |
| StableSort.SortBy | src/utils/ecoTips.ts:91 | the sort keeps the length (its other properties are the lemmas below) |
| StableSort.InsertByPermutes | src/utils/ecoTips.ts:91 | inserting keeps every element and adds exactly the new one |
| StableSort.InsertBySorted | src/utils/ecoTips.ts:91 | inserting into an ordered list keeps it ordered |
| StableSort.InsertByStable | src/utils/ecoTips.ts:91 | inserting keeps the relative order of the elements of each key, the new one behind those of its key |
| StableSort.SortByPermutes | src/utils/ecoTips.ts:91 | sorting is a permutation |
| StableSort.SortBySorted | src/utils/ecoTips.ts:91 | the result is ordered by the key |
| StableSort.SortByStable | src/utils/ecoTips.ts:91 | elements with equal keys keep their relative order |
| StableSort.InsertBySplits | src/pages/TrackerPage.tsx:36-38 | inserting into a sorted list places the element at its insertion point and leaves the rest in order |
| StableSort.InsertionPointInFront | src/pages/TrackerPage.tsx:36-38 | every element in front of the insertion point has a key no greater than the new one's |
| StableSort.InsertionPointBehind | src/pages/TrackerPage.tsx:36-38 | every element behind the insertion point has a greater key than the new one's |
| StableSort.SortBySortedIdentity | src/pages/TrackerPage.tsx:36-38 | sorting an already sorted list changes nothing |
| EcoTips.TipIdRoundTrip | src/utils/ecoTips.ts:4-89 | each tip's identifier names that tip back |
| EcoTips.IdsDistinct | src/utils/ecoTips.ts:4-89 | the twelve tip identifiers are distinct |
| EcoTips.Evaluate | src/utils/ecoTips.ts:4-89 | one tip per kind, in the order given, each with its saving and applicability for the household |
| EcoTips.Catalogue | src/utils/ecoTips.ts:4-89 | twelve entries in declaration order, each applicable exactly when its condition holds |
| EcoTips.ApplicableTips | src/utils/ecoTips.ts:91 | the filter keeps exactly the applicable tips and nothing else, never more often than given |
| EcoTips.FilterAppend | src/utils/ecoTips.ts:91 | the filter works entry by entry: filtering a join is joining the filtered parts, so catalogue order is kept |
| EcoTips.FilterWithKey | src/utils/ecoTips.ts:91 | filtering and picking the entries of one saving commute |
| EcoTips.Recommend | src/utils/ecoTips.ts:91 | the result holds exactly the applicable catalogue entries, with savings not increasing |
| EcoTips.RecommendFromCatalogue | src/utils/ecoTips.ts:91 | every returned tip is an entry of the catalogue |
| EcoTips.RecommendPermutes | src/utils/ecoTips.ts:91 | the ranking is a permutation of the filtered list |
| EcoTips.RecommendStable | src/utils/ecoTips.ts:91 | the returned tips of one saving are exactly the applicable catalogue entries of that saving, in catalogue order |
| EcoTips.RecommendOnce | src/utils/ecoTips.ts:91 | each applicable entry appears exactly once, anything else never |
| EcoTips.RecommendDistinct | src/utils/ecoTips.ts:91 | no tip repeats |
| EcoTips.RecommendTop | src/utils/ecoTips.ts:91 | the applicable entry with strictly the largest saving comes first |
| EcoTips.RecommendsEntry | src/utils/ecoTips.ts:4-91 | a catalogue entry is recommended exactly when it is applicable |
| EcoTips.CatalogueDistinctKinds | src/utils/ecoTips.ts:4-89 | the catalogue has twelve entries of distinct kinds |
| EcoTips.GenerateEcoTips | src/utils/ecoTips.ts:3-92 | a tip is returned exactly when it is an applicable catalogue entry, and savings never increase along the result |
| EcoTips.TipsDistinct | src/utils/ecoTips.ts:3-91 | `generateEcoTips` repeats no tip and returns at most twelve |
| EcoTips.TipsNonEmpty | src/utils/ecoTips.ts:41-91 | at least one tip is always returned, because local food always applies |
| EcoTips.TipApplicability | src/utils/ecoTips.ts:10-87 | each tip is returned exactly when its strict threshold or choice holds |
| EcoTips.RecommendedWhenApplicable | src/utils/ecoTips.ts:3-91 | a tip is returned exactly when it applies |
| EcoTips.TipSavingsNonNegative | src/utils/ecoTips.ts:9-86 | with non-negative results and counts no saving is negative; the investment tip saves 500 |
| EcoTips.SavingsNonNegative | src/utils/ecoTips.ts:9-91 | every returned tip's saving is non-negative under those conditions, and the investment tip's is 500 |
| Quotients.DivideByZero | src/pages/TrackerPage.tsx:50 | dividing by zero gives +Infinity, -Infinity or NaN by the dividend's sign |
| Quotients.PercentOf | src/pages/TrackerPage.tsx:50 | `a / b * 100` is finite exactly when b is not 0, and then its value times b is 100 a |
| Quotients.PercentSign | src/pages/TrackerPage.tsx:50 | over a positive divisor the percentage has the sign of the dividend |
| Quotients.AtLeast | src/utils/badgeSystem.ts:61-81 | `p >= t` on JavaScript numbers: false for NaN and -Infinity, the real comparison for a finite value |
| Quotients.AtMost | src/utils/badgeSystem.ts:13-53 | `p <= t` on JavaScript numbers: false for NaN and +Infinity, the real comparison for a finite value |
| Quotients.AtLeastScaled | src/utils/badgeSystem.ts:59-61 | over a positive divisor, the percentage reaches t exactly when 100 a is at least t b |
| BadgeSystem.Reduction | src/utils/badgeSystem.ts:59 | the reduction is finite exactly when the previous total is not 0, and then times that total it is 100 times the fall; after a zero total it is +Infinity for a negative latest total and NaN for zero |
| BadgeSystem.FootprintBadge | src/utils/badgeSystem.ts:11-53 | a footprint badge exactly when per-person is at most 8000, at the lowest ceiling it stays under |
| BadgeSystem.ReductionBadge | src/utils/badgeSystem.ts:55-92 | none before two entries; otherwise a badge exactly when the reduction reaches 5 %, at the highest tier reached |
| BadgeSystem.ConsistencyBadges | src/utils/badgeSystem.ts:94-117 | two badges from 12 entries, one from 6, none below, each with a threshold the count meets |
| BadgeSystem.EarnedBadges | src/utils/badgeSystem.ts:3-120 | every earned badge is stamped with the current time |
| BadgeSystem.CalculateBadges | src/utils/badgeSystem.ts:3-120 | the imperative rule chain returns exactly the earned badges |
| BadgeSystem.LevelPoints | src/utils/badgeSystem.ts:123-128 | every level is worth between 10 and 100 points |
| BadgeSystem.CalculatePoints | src/utils/badgeSystem.ts:122-131 | the points lie between 10 and 100 per badge, and an empty list scores 0 |
| BadgeSystem.PointsAdditive | src/utils/badgeSystem.ts:130 | the points of two lists joined are the sum of their points |
| BadgeSystem.PointsOfOne | src/utils/badgeSystem.ts:123-130 | one badge scores its level's value |
| BadgeSystem.BadgeIdRoundTrip | src/utils/badgeSystem.ts:15-109 | each badge's identifier names that badge back |
| BadgeSystem.BadgeIdsDistinct | src/utils/badgeSystem.ts:15-109 | the nine badge identifiers are distinct |
| BadgeSystem.EarnedBadgesShape | src/utils/badgeSystem.ts:3-120 | at most four badges, no two alike, in footprint, reduction, consistency order |
| BadgeSystem.PartsOrdered | src/utils/badgeSystem.ts:3-120 | at most one footprint, one reduction and two different consistency badges, joined in that order, are ordered by criterion with no two alike |
| BadgeSystem.FewEntriesFootprintOnly | src/utils/badgeSystem.ts:56-107 | with fewer than two entries only the footprint badge can be earned |
| BadgeSystem.FootprintTiers | src/utils/badgeSystem.ts:13-53 | each per-person band earns its own badge, above 8000 none |
| BadgeSystem.NonFiniteFootprint | src/utils/badgeSystem.ts:13-53 | -Infinity earns the top badge; +Infinity and NaN earn none |
| BadgeSystem.ReductionTiers | src/utils/badgeSystem.ts:59-91 | over a positive previous total each tier is an integer comparison |
| BadgeSystem.TwentyPercentCut | src/utils/badgeSystem.ts:59-80 | a fall from 1000 to 800 earns the emission-cutter badge |
| BadgeSystem.NoReductionWithoutFall | src/utils/badgeSystem.ts:59-91 | a total that does not fall earns no reduction badge |
| BadgeSystem.ZeroPreviousTotal | src/utils/badgeSystem.ts:59-91 | after a zero total, a negative total earns the top tier through -Infinity; otherwise none |
| BadgeSystem.ConsistencyTiers | src/utils/badgeSystem.ts:95-117 | the consistency badges for each count, in order |
| BadgeSystem.Restamp | src/utils/badgeSystem.ts:8 | restamping keeps the badges and changes only their date |
| BadgeSystem.RestampAppend | src/utils/badgeSystem.ts:8 | restamping distributes over joining |
| BadgeSystem.FootprintRestamp | src/utils/badgeSystem.ts:8-53 | the footprint badge earned at one time, restamped, is the one earned at another |
| BadgeSystem.ReductionRestamp | src/utils/badgeSystem.ts:8-91 | the same for the reduction badge |
| BadgeSystem.ConsistencyRestamp | src/utils/badgeSystem.ts:8-117 | the same for the consistency badges |
| BadgeSystem.TimestampIndependent | src/utils/badgeSystem.ts:8-20 | the clock only stamps the badges: which are earned and their points do not depend on it |
| BadgeSystem.SameLevelsSamePoints | src/utils/badgeSystem.ts:130 | lists of the same badges score the same |
| Tracker.AppendByDate | src/pages/TrackerPage.tsx:36-38 | the re-sorted history has exactly one more entry |
| Tracker.AppendByDateSorted | src/pages/TrackerPage.tsx:36-38 | the new history is date-ordered and holds the old entries plus the new one |
| Tracker.AppendByDateInserts | src/pages/TrackerPage.tsx:36-38 | into an ordered history the new entry is inserted behind every entry of its date or earlier, in front of every later one |
| Tracker.GetTrend | src/pages/TrackerPage.tsx:44-53 | no trend before two entries; otherwise the change between the last two totals and its percentage of the previous |
| Tracker.TrendDirection | src/pages/TrackerPage.tsx:44-53 | the change is negative exactly when the total fell, and over a positive previous total so is the percentage |
| Tracker.TrendMirrorsReduction | src/pages/TrackerPage.tsx:50 | the trend percentage is the negated reduction the badge uses |
| Tracker.TrackerPage.constructor | src/pages/TrackerPage.tsx:12-20 | the saved history if there is one, else an empty one, with the form closed; a saved history is date-ordered because only `addEntry` writes it |
| Tracker.TrackerPage.AddEntry | src/pages/TrackerPage.tsx:27-42 | the history becomes the stable date-sort of the old one plus the new snapshot, which on the date-ordered history inserts the snapshot behind every entry dated on or before it and in front of every later one; the history stays date-ordered and the form closes |
| Tracker.TrackerPage.OpenAddForm | src/pages/TrackerPage.tsx:144 | opens the form and leaves the history |
| Tracker.TrackerPage.CancelAddForm | src/pages/TrackerPage.tsx:175 | closes the form and leaves the history |
| Tracker.TrackerPage.AddSavedEntry | src/pages/TrackerPage.tsx:163-170 | with saved answers, adds an entry for them; without, nothing changes |
| Tracker.TrackerPage.CurrentBadges | src/pages/TrackerPage.tsx:56-58 | no badges for an empty history; otherwise those the history earns with the latest results |
| InputForm.Get | src/pages/InputFormPage.tsx:75-79 | each field reads a value of its own kind |
| InputForm.SetOnlyNamedField | src/pages/InputFormPage.tsx:75-79 | a change writes the named field and no other |
| InputForm.SetReadsBack | src/pages/InputFormPage.tsx:75-79 | the named field reads back the value written |
| InputForm.Message | src/pages/InputFormPage.tsx:93-101 | the three checked fields have a non-empty message, every other field none |
| InputForm.ValidationErrors | src/pages/InputFormPage.tsx:90-104 | an error for electricity exactly when it is at most 0, for distance exactly when negative, for household size exactly when at most 0, and for nothing else |
| InputForm.ErrorsAreMessages | src/pages/InputFormPage.tsx:90-104 | every error recorded is its field's own non-empty message |
| InputForm.ValidIff | src/pages/InputFormPage.tsx:90-107 | the form is valid exactly when the three checks pass, which makes the household size positive |
| InputForm.UncheckedFieldsIgnored | src/pages/InputFormPage.tsx:90-107 | changing an unchecked field does not change the errors |
| InputForm.DefaultFormData | src/pages/InputFormPage.tsx:13-63 | the opening answers sit at the application's location, for a household of two |
| InputForm.DefaultsAreValid | src/pages/InputFormPage.tsx:13-107 | the opening answers pass validation |
| InputForm.InputFormPage.constructor | src/pages/InputFormPage.tsx:13-65 | the form opens with the default answers at the app's location and no errors |
| InputForm.InputFormPage.HandleInputChange | src/pages/InputFormPage.tsx:75-88 | the field takes the value; its error is cleared only when it was a non-empty message |
| InputForm.InputFormPage.ValidateForm | src/pages/InputFormPage.tsx:90-107 | the errors become those of the answers, and the result is true exactly when there are none |
| InputForm.InputFormPage.HandleSubmit | src/pages/InputFormPage.tsx:109-116 | valid answers are saved and the page moves to the results; invalid ones change only the errors |
| AppContext.AppReducer | src/contexts/AppContext.tsx:37-54 | each action replaces its own field with its payload and leaves every other field |
| AppContext.UnrecognizedIsIdentity | src/contexts/AppContext.tsx:51-52 | an unknown action leaves the state unchanged |
| AppContext.ReducerIdempotent | src/contexts/AppContext.tsx:37-54 | dispatching an action twice is dispatching it once |
| AppContext.ReducerFieldsIndependent | src/contexts/AppContext.tsx:37-54 | actions on different fields commute; on the same field the later wins |
| AppContext.InitialStateDefaults | src/contexts/AppContext.tsx:23-30 | English, light, signed out, no household, voice off, in the United States at 0.855 |
| AppContext.Translate | src/contexts/AppContext.tsx:126-128 | a non-empty translation in the current language, otherwise the key itself |
| AppContext.MissingTranslationShowsKey | src/contexts/AppContext.tsx:127 | a key with no usable translation shows as written |
| Family.LeadingBlanks | src/pages/FamilyPage.tsx:59-63 | the leading run of white space stops at the string's end or at a non-space character |
| Family.TrailingBlanks | src/pages/FamilyPage.tsx:59-63 | the trailing run of white space stops at the string's start or at a non-space character |
| Family.LeadingBlanksAreBlank | src/pages/FamilyPage.tsx:59-63 | the leading run is all white space |
| Family.TrailingBlanksAreBlank | src/pages/FamilyPage.tsx:59-63 | the trailing run is all white space |
| Family.Trim | src/pages/FamilyPage.tsx:59-63 | `trim` returns a contiguous slice that starts and ends with a non-space character, or nothing |
| Family.TrimDropsWhiteSpace | src/pages/FamilyPage.tsx:59-63 | what `trim` drops on each side is white space |
| Family.TrimEmptyIffBlank | src/pages/FamilyPage.tsx:59 | a name trims to nothing exactly when it is all white space |
| Family.TrimIdempotent | src/pages/FamilyPage.tsx:59-63 | trimming a trimmed name changes nothing |
| Family.HouseholdOrDefault | src/pages/FamilyPage.tsx:67-146 | the stored household, or the empty "default" household with no members and 0 points |
| Family.HouseholdWithMember | src/pages/FamilyPage.tsx:58-79 | nothing for a blank name; otherwise the household with one member appended, with the trimmed name, and every other field kept |
| Family.AddKeepsMembers | src/pages/FamilyPage.tsx:61-79 | the existing members stay in order and exactly one plain member with a trimmed, non-empty name is added |
| Family.FirstMemberFoundsHousehold | src/pages/FamilyPage.tsx:67-79 | without a household, the first member founds the "default" household |
| Family.DefaultChallenges | src/pages/FamilyPage.tsx:21-52 | the three starting challenges |
| Family.ActiveCount | src/pages/FamilyPage.tsx:193 | the count of uncompleted challenges: 0 exactly when all are completed, all of them exactly when none is |
| Family.DefaultChallengesFresh | src/pages/FamilyPage.tsx:21-52 | the starting challenges have distinct ids, no assignees, and all three are active |
| Family.Without | src/pages/FamilyPage.tsx:93 | the filter removes every occurrence of the member and keeps everyone else |
| Family.Toggle | src/pages/FamilyPage.tsx:88-100 | an assigned member is removed; otherwise the member is appended; nothing else changes |
| Family.ToggleFlips | src/pages/FamilyPage.tsx:89-99 | after the toggle the member is assigned exactly when they were not, and nobody else changes |
| Family.ToggleTwice | src/pages/FamilyPage.tsx:89-99 | toggling twice restores a list without the member, and the challenge itself when the list was present; a listed member moves to the end |
| Family.WithoutAppended | src/pages/FamilyPage.tsx:93-98 | removing a just-appended member gives the list back |
| Family.ToggleAssignments | src/pages/FamilyPage.tsx:86-103 | challenges with the id are toggled; all others are unchanged |
| Family.AssignKeepsActiveCount | src/pages/FamilyPage.tsx:86-193 | assigning changes no active count |
| Family.AssignTwice | src/pages/FamilyPage.tsx:86-103 | assigning the same member twice restores each assignment list that lacked the member |
| Family.MarkCompleted | src/pages/FamilyPage.tsx:109-115 | challenges with the id become completed; all others are unchanged |
| Family.CompleteIdempotent | src/pages/FamilyPage.tsx:109-115 | completing twice is completing once |
| Family.CompleteLowersActiveCount | src/pages/FamilyPage.tsx:109-193 | completing never raises the active count, and lowers it exactly when an active challenge has the id |
| Family.CompleteOneActive | src/pages/FamilyPage.tsx:109-193 | with distinct ids, completing an active challenge lowers the count by exactly one |
| Family.CompleteNoMatch | src/pages/FamilyPage.tsx:109-115 | an id no challenge has changes nothing |
| Family.FamilyPage.constructor | src/pages/FamilyPage.tsx:14-56 | the saved challenges if any, else the defaults; an empty name and a closed form |
| Family.FamilyPage.Household | src/pages/FamilyPage.tsx:139-146 | the household the page shows |
| Family.FamilyPage.ActiveChallenges | src/pages/FamilyPage.tsx:193 | the active figure is the count of uncompleted challenges |
| Family.FamilyPage.TypeName | src/pages/FamilyPage.tsx:345 | typing sets the name only |
| Family.FamilyPage.OpenAddMember | src/pages/FamilyPage.tsx:208 | opens the form only |
| Family.FamilyPage.CancelAddMember | src/pages/FamilyPage.tsx:358-361 | closes the form and clears the name |
| Family.FamilyPage.AddFamilyMember | src/pages/FamilyPage.tsx:58-84 | a blank name changes nothing; otherwise the updated household is dispatched and the form is cleared and closed |
| Family.FamilyPage.AssignChallenge | src/pages/FamilyPage.tsx:86-107 | the challenges become the toggled list |
| Family.FamilyPage.CompleteChallenge | src/pages/FamilyPage.tsx:109-119 | the challenges become the completed list |
| DefaultScenario.DefaultBuckets | src/pages/InputFormPage.tsx:13-63 | the opening answers' six unrounded buckets at the US factor |
| DefaultScenario.DefaultEmissions | src/utils/calculations.ts:46-111 | the opening answers estimate 39418 kg in total and 19709 kg per person |
| DefaultScenario.DefaultCatalogueEntry | src/utils/ecoTips.ts:4-89 | each tip's saving and applicability for the opening answers |
| DefaultScenario.DefaultRecommended | src/utils/ecoTips.ts:3-91 | seven of the twelve tips are returned for the opening answers |
| DefaultScenario.TableTop | src/utils/ecoTips.ts:91 | over that table the electric vehicle ranks first |
| DefaultScenario.DefaultFirstRecommendation | src/utils/ecoTips.ts:27-91 | the first tip for the opening answers is the electric vehicle, saving 3851 kg |

## Left out

- Rendering, charts, icons, colours, navigation, the voice input and the language and theme
  selectors are out of scope.
  - The country flags and the detection of the user's country through the browser's `Intl`
    locale are left out too.
- Local storage and JSON parsing are modelled as state fields and parameters.
  - A saved record is assumed to parse back to what was saved.
- The clock is a parameter.
  - This covers the entry and member identifiers, the entry date and the badges' earned date.
  - The entry date is modelled as the integer its ISO string parses to.
- The translation tables are data and are not part of this model. Only the lookup rule is
  modelled.
- `formatEmissions` is a display helper and is not modelled.
- Numbers are exact reals, so IEEE-754 rounding artefacts are not modelled.
  - Example: `0.1 + 0.2` is not `0.3` in JavaScript.
  - Infinities and NaN are modelled only where a division by zero reaches a result: per-person,
    the trend and the reduction.
  - Missing numeric answers (`|| 0`) are not modelled, because the form always supplies every
    field.
- A member's optional `personalData` is not modelled.
- A badge's and a tip's name, description, icon and category are modelled as functions of
  their kind (`BadgeKind`, `TipKind`) rather than as fields of each record.
- Challenge points and the leaderboard are not modelled. No core code awards them.
- The input form's select, text and number widgets are not modelled. The value is passed in
  already typed, so `parseInt` and `parseFloat` on the raw input are not part of this model.
- InputForm.InputFormPage.HandleInputChange: the source sets a cleared error to `undefined`. The
  model removes the key. Both read as "no error" everywhere the errors are used.
  - The exception is `Object.keys(...).length`. The form computes it only on a fresh object,
    which never holds such a key.
- Calculations.CalculateEmissions: the total is the rounding of the unrounded grand total, as
  the code computes it. It is not the sum of the rounded buckets, and the two can differ by up
  to 3. No bucket is clamped at zero.
- Family.FamilyPage.AssignChallenge: toggling a member twice starting from no assignment list
  gives an empty list, not an absent one. The model proves this restores the list with an absent
  list read as empty, which is how the page reads it.
- DefaultScenario.DefaultFirstRecommendation: for the opening answers only the first place of
  the ranking is proved. The full order follows from `EcoTips.Recommend`'s ordering and the
  table in `DefaultCatalogueEntry`, but is not stated as one equation.
