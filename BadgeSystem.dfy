/** Achievement badges for a household's monthly history, and the points they are worth. */
module BadgeSystem {
  import opened Wrappers
  import opened Types
  import opened Quotients

  // ---------------------------------------------------------------------------
  // Specification: which badges a history earns
  // ---------------------------------------------------------------------------

  const FootprintThresholds: seq<int> := [1500, 2300, 4800, 8000]
  const ReductionThresholds: seq<int> := [30, 15, 5]

  /** The footprint badge: the most demanding per-person ceiling the footprint stays under. */
  function FootprintBadge(perPerson: Number, now: string): (b: Option<Badge>)
    ensures b.Some? <==> AtMost(perPerson, 8000.0)
    ensures b.Some? ==> b.value.kind.Criterion().kind == FootprintCriterion && b.value.earnedDate == now
    ensures b.Some? ==> b.value.kind.Criterion().threshold in FootprintThresholds
    ensures b.Some? ==> AtMost(perPerson, b.value.kind.Criterion().threshold as real)
    ensures b.Some? ==> forall t :: t in FootprintThresholds && t < b.value.kind.Criterion().threshold ==>
                                      !AtMost(perPerson, t as real)
  {
    if AtMost(perPerson, 1500.0) then Some(Badge(ClimateHero, now))
    else if AtMost(perPerson, 2300.0) then Some(Badge(EcoChampion, now))
    else if AtMost(perPerson, 4800.0) then Some(Badge(GreenGuardian, now))
    else if AtMost(perPerson, 8000.0) then Some(Badge(EcoStarter, now))
    else None
  }

  /** The percentage by which the latest total fell below the previous one. */
  function Reduction(previous: int, latest: int): (r: Number)
    ensures r.Finite? <==> previous != 0
    ensures r.Finite? ==> r.value * previous as real == (previous - latest) as real * 100.0
    ensures previous == 0 ==> (r.PlusInfinity? <==> latest < 0) && (r.NotANumber? <==> latest == 0)
  {
    PercentOf(previous - latest, previous)
  }

  /** The reduction badge: the highest reduction tier reached between the last two entries. */
  function ReductionBadge(entries: seq<MonthlyEntry>, now: string): (b: Option<Badge>)
    ensures |entries| < 2 ==> b.None?
    ensures b.Some? ==> b.value.kind.Criterion().kind == ReductionCriterion && b.value.earnedDate == now
    ensures b.Some? ==> b.value.kind.Criterion().threshold in ReductionThresholds
    ensures |entries| >= 2 ==>
      var reduction := Reduction(entries[|entries| - 2].results.total, entries[|entries| - 1].results.total);
      && (b.Some? <==> AtLeast(reduction, 5.0))
      && (b.Some? ==> AtLeast(reduction, b.value.kind.Criterion().threshold as real))
      && (b.Some? ==> forall t :: t in ReductionThresholds && t > b.value.kind.Criterion().threshold ==>
                        !AtLeast(reduction, t as real))
  {
    if |entries| < 2 then None
    else
      var reduction := Reduction(entries[|entries| - 2].results.total, entries[|entries| - 1].results.total);
      if AtLeast(reduction, 30.0) then Some(Badge(SuperReducer, now))
      else if AtLeast(reduction, 15.0) then Some(Badge(EmissionCutter, now))
      else if AtLeast(reduction, 5.0) then Some(Badge(ProgressMaker, now))
      else None
  }

  /** The consistency badges: one for six tracked months, another for twelve. */
  function ConsistencyBadges(count: nat, now: string): (bs: seq<Badge>)
    ensures |bs| == (if count >= 12 then 2 else if count >= 6 then 1 else 0)
    ensures forall b :: b in bs ==> b.kind.Criterion().kind == ConsistencyCriterion && b.kind.Criterion().threshold <= count
  {
    (if count >= 6 then [Badge(ConsistentTracker, now)] else [])
    + (if count >= 12 then [Badge(YearLongChampion, now)] else [])
  }

  function OptionToSeq(o: Option<Badge>): (s: seq<Badge>)
    ensures |s| <= 1
    ensures forall b :: b in s <==> o == Some(b)
  {
    match o
    case None => []
    case Some(b) => [b]
  }

  /** Every badge the history and the current results earn, in award order: footprint,
      reduction, consistency. */
  function EarnedBadges(entries: seq<MonthlyEntry>, current: EmissionResults, now: string): (badges: seq<Badge>)
    ensures forall b :: b in badges ==> b.earnedDate == now
  {
    OptionToSeq(FootprintBadge(current.perPerson, now))
    + OptionToSeq(ReductionBadge(entries, now))
    + ConsistencyBadges(|entries|, now)
  }

  // ---------------------------------------------------------------------------
  // The imperative computation
  // ---------------------------------------------------------------------------

  /** `calculateBadges`: each rule that fires appends its badge to a list. */
  method CalculateBadges(entries: seq<MonthlyEntry>, current: EmissionResults, now: string)
    returns (badges: seq<Badge>)
    ensures badges == EarnedBadges(entries, current, now)
  {
    badges := [];
    var perPerson := current.perPerson;
    if AtMost(perPerson, 1500.0) {
      badges := badges + [Badge(ClimateHero, now)];
    } else if AtMost(perPerson, 2300.0) {
      badges := badges + [Badge(EcoChampion, now)];
    } else if AtMost(perPerson, 4800.0) {
      badges := badges + [Badge(GreenGuardian, now)];
    } else if AtMost(perPerson, 8000.0) {
      badges := badges + [Badge(EcoStarter, now)];
    }
    ghost var footprint := badges;
    assert footprint == OptionToSeq(FootprintBadge(current.perPerson, now));

    if |entries| >= 2 {
      var latest := entries[|entries| - 1];
      var previous := entries[|entries| - 2];
      var reduction := PercentOf(previous.results.total - latest.results.total, previous.results.total);
      assert reduction == Reduction(previous.results.total, latest.results.total);
      if AtLeast(reduction, 30.0) {
        badges := badges + [Badge(SuperReducer, now)];
      } else if AtLeast(reduction, 15.0) {
        badges := badges + [Badge(EmissionCutter, now)];
      } else if AtLeast(reduction, 5.0) {
        badges := badges + [Badge(ProgressMaker, now)];
      }
    }
    assert badges == footprint + OptionToSeq(ReductionBadge(entries, now));

    ghost var earlier := badges;
    ghost var six: seq<Badge> := if |entries| >= 6 then [Badge(ConsistentTracker, now)] else [];
    ghost var twelve: seq<Badge> := if |entries| >= 12 then [Badge(YearLongChampion, now)] else [];
    if |entries| >= 6 {
      badges := badges + [Badge(ConsistentTracker, now)];
    }
    assert badges == earlier + six;
    if |entries| >= 12 {
      badges := badges + [Badge(YearLongChampion, now)];
    }
    assert badges == (earlier + six) + twelve;
    assert ConsistencyBadges(|entries|, now) == six + twelve;
    AppendAssociative(earlier, six, twelve);
  }

  /** Proof helper for `CalculateBadges`: joining badge lists is associative. */
  lemma AppendAssociative(a: seq<Badge>, b: seq<Badge>, c: seq<Badge>)
    ensures (a + b) + c == a + (b + c)
  {
  }

  // ---------------------------------------------------------------------------
  // Points
  // ---------------------------------------------------------------------------

  function LevelPoints(level: Level): (p: int)
    ensures 10 <= p <= 100
  {
    match level
    case Bronze => 10
    case Silver => 25
    case Gold => 50
    case Platinum => 100
  }

  /** `calculatePoints`: the level values summed from the left. */
  function CalculatePoints(badges: seq<Badge>): (p: int)
    ensures 10 * |badges| <= p <= 100 * |badges|
    ensures badges == [] ==> p == 0
  {
    if badges == [] then 0
    else CalculatePoints(badges[..|badges| - 1]) + LevelPoints(badges[|badges| - 1].kind.Tier())
  }

  // ---------------------------------------------------------------------------
  // Properties
  // ---------------------------------------------------------------------------

  /** Points are additive over concatenation. */
  lemma {:induction false} PointsAdditive(a: seq<Badge>, b: seq<Badge>)
    ensures CalculatePoints(a + b) == CalculatePoints(a) + CalculatePoints(b)
  {
    if b == [] {
      assert a + b == a;
    } else {
      var init := b[..|b| - 1];
      assert (a + b)[..|a + b| - 1] == a + init;
      PointsAdditive(a, init);
    }
  }

  /** A single badge is worth its level's value. */
  lemma PointsOfOne(b: Badge)
    ensures CalculatePoints([b]) == LevelPoints(b.kind.Tier())
  {
    assert [b][..0] == [];
  }

  function CriterionRank(kind: CriterionType): int {
    match kind
    case FootprintCriterion => 0
    case ReductionCriterion => 1
    case ConsistencyCriterion => 2
    case ChallengeCriterion => 3
  }

  /** The badge an identifier names, if any. */
  function BadgeFromId(id: string): Option<BadgeKind> {
    match id
    case "climate-hero" => Some(ClimateHero)
    case "eco-champion" => Some(EcoChampion)
    case "green-guardian" => Some(GreenGuardian)
    case "eco-starter" => Some(EcoStarter)
    case "super-reducer" => Some(SuperReducer)
    case "emission-cutter" => Some(EmissionCutter)
    case "progress-maker" => Some(ProgressMaker)
    case "consistent-tracker" => Some(ConsistentTracker)
    case "year-long-champion" => Some(YearLongChampion)
    case _ => None
  }

  /** Reading a badge's identifier back gives the badge. */
  lemma BadgeIdRoundTrip(k: BadgeKind)
    ensures BadgeFromId(k.Id()) == Some(k)
  {
    match k
    case ClimateHero =>
    case EcoChampion =>
    case GreenGuardian =>
    case EcoStarter =>
    case SuperReducer =>
    case EmissionCutter =>
    case ProgressMaker =>
    case ConsistentTracker =>
    case YearLongChampion =>
  }

  /** Distinct badges carry distinct identifiers. */
  lemma BadgeIdsDistinct(a: BadgeKind, b: BadgeKind)
    requires a != b
    ensures a.Id() != b.Id()
  {
    BadgeIdRoundTrip(a);
    BadgeIdRoundTrip(b);
  }

  /** The shape of a list made of one footprint part, one reduction part and one
      consistency part. */
  predicate Ordered(all: seq<Badge>) {
    && (forall i, j :: 0 <= i < j < |all| ==> all[i].kind != all[j].kind)
    && (forall i, j :: 0 <= i < j < |all| ==>
          CriterionRank(all[i].kind.Criterion().kind) <= CriterionRank(all[j].kind.Criterion().kind))
    && (forall i, j :: 0 <= i < j < |all| && all[i].kind.Criterion().kind != ConsistencyCriterion ==>
          all[i].kind.Criterion().kind != all[j].kind.Criterion().kind)
  }

  lemma PartsOrdered(f: seq<Badge>, r: seq<Badge>, c: seq<Badge>)
    requires |f| <= 1 && |r| <= 1 && |c| <= 2
    requires forall b :: b in f ==> b.kind.Criterion().kind == FootprintCriterion
    requires forall b :: b in r ==> b.kind.Criterion().kind == ReductionCriterion
    requires forall b :: b in c ==> b.kind.Criterion().kind == ConsistencyCriterion
    requires |c| == 2 ==> c[0].kind != c[1].kind
    ensures Ordered(f + r + c)
  {
    var all := f + r + c;
    forall i, j | 0 <= i < j < |all|
      ensures all[i].kind != all[j].kind
      ensures CriterionRank(all[i].kind.Criterion().kind) <= CriterionRank(all[j].kind.Criterion().kind)
      ensures all[i].kind.Criterion().kind != ConsistencyCriterion ==>
                all[i].kind.Criterion().kind != all[j].kind.Criterion().kind
    {
      if i < |f| {
        assert all[i] in f;
        if j < |f| + |r| { assert all[j] in r; } else { assert all[j] in c; }
      } else if i < |f| + |r| {
        assert all[i] in r && all[j] in c;
      } else {
        assert i == |f| + |r| && j == i + 1;
        assert all[i] == c[0] && all[j] == c[1];
      }
    }
  }

  /** At most one footprint badge and one reduction badge; at most four badges in all, none
      twice, footprint before reduction before consistency. */
  lemma EarnedBadgesShape(entries: seq<MonthlyEntry>, current: EmissionResults, now: string)
    ensures |EarnedBadges(entries, current, now)| <= 4
    ensures Ordered(EarnedBadges(entries, current, now))
  {
    ConsistencyTiers(|entries|, now);
    PartsOrdered(OptionToSeq(FootprintBadge(current.perPerson, now)), OptionToSeq(ReductionBadge(entries, now)),
                 ConsistencyBadges(|entries|, now));
  }

  /** With fewer than two entries only a footprint badge can be earned. */
  lemma FewEntriesFootprintOnly(entries: seq<MonthlyEntry>, current: EmissionResults, now: string)
    requires |entries| < 2
    ensures |EarnedBadges(entries, current, now)| <= 1
    ensures forall b :: b in EarnedBadges(entries, current, now) ==> b.kind.Criterion().kind == FootprintCriterion
  {
    assert EarnedBadges(entries, current, now) == OptionToSeq(FootprintBadge(current.perPerson, now));
  }

  /** The per-person ceilings select one tier each. */
  lemma FootprintTiers(perPerson: int, now: string)
    ensures perPerson <= 1500 ==> FootprintBadge(Finite(perPerson as real), now) == Some(Badge(ClimateHero, now))
    ensures 1500 < perPerson <= 2300 ==> FootprintBadge(Finite(perPerson as real), now) == Some(Badge(EcoChampion, now))
    ensures 2300 < perPerson <= 4800 ==> FootprintBadge(Finite(perPerson as real), now) == Some(Badge(GreenGuardian, now))
    ensures 4800 < perPerson <= 8000 ==> FootprintBadge(Finite(perPerson as real), now) == Some(Badge(EcoStarter, now))
    ensures 8000 < perPerson ==> FootprintBadge(Finite(perPerson as real), now) == None
  {
  }

  /** A non-finite per-person figure (a household of size 0) earns the top footprint badge
      when it is minus infinity and none otherwise, since NaN compares false. */
  lemma NonFiniteFootprint(now: string)
    ensures FootprintBadge(MinusInfinity, now) == Some(Badge(ClimateHero, now))
    ensures FootprintBadge(PlusInfinity, now) == None
    ensures FootprintBadge(NotANumber, now) == None
  {
  }

  /** A reduction tier is reached when the previous total falls by that share, compared as
      integers once the positive previous total is cleared from the denominator. */
  lemma ReductionTiers(previous: int, latest: int)
    requires previous > 0
    ensures AtLeast(Reduction(previous, latest), 30.0) <==> (previous - latest) * 100 >= 30 * previous
    ensures AtLeast(Reduction(previous, latest), 15.0) <==> (previous - latest) * 100 >= 15 * previous
    ensures AtLeast(Reduction(previous, latest), 5.0) <==> (previous - latest) * 100 >= 5 * previous
  {
    AtLeastScaled(previous - latest, previous, 30.0);
    AtLeastScaled(previous - latest, previous, 15.0);
    AtLeastScaled(previous - latest, previous, 5.0);
  }

  /** A 20% fall earns the 15% badge, not the 30% one. */
  lemma TwentyPercentCut(entries: seq<MonthlyEntry>, now: string)
    requires |entries| >= 2
    requires entries[|entries| - 2].results.total == 1000 && entries[|entries| - 1].results.total == 800
    ensures ReductionBadge(entries, now) == Some(Badge(EmissionCutter, now))
  {
    ReductionTiers(1000, 800);
  }

  /** A total that rose or stayed level earns no reduction badge. */
  lemma NoReductionWithoutFall(entries: seq<MonthlyEntry>, now: string)
    requires |entries| >= 2
    requires entries[|entries| - 2].results.total > 0
    requires entries[|entries| - 1].results.total >= entries[|entries| - 2].results.total
    ensures ReductionBadge(entries, now) == None
  {
    ReductionTiers(entries[|entries| - 2].results.total, entries[|entries| - 1].results.total);
  }

  /** A previous total of zero followed by a negative one divides by zero; the infinite
      quotient passes every threshold and earns the top reduction badge. */
  lemma ZeroPreviousTotal(entries: seq<MonthlyEntry>, now: string)
    requires |entries| >= 2
    requires entries[|entries| - 2].results.total == 0
    ensures entries[|entries| - 1].results.total < 0 ==> ReductionBadge(entries, now) == Some(Badge(SuperReducer, now))
    ensures entries[|entries| - 1].results.total >= 0 ==> ReductionBadge(entries, now) == None
  {
  }

  /** Twelve entries earn both consistency badges, six to eleven only the first. */
  lemma ConsistencyTiers(count: nat, now: string)
    ensures count >= 12 ==> ConsistencyBadges(count, now) == [Badge(ConsistentTracker, now), Badge(YearLongChampion, now)]
    ensures 6 <= count < 12 ==> ConsistencyBadges(count, now) == [Badge(ConsistentTracker, now)]
    ensures count < 6 ==> ConsistencyBadges(count, now) == []
  {
  }

  /** The same badges awarded at another time. */
  function Restamp(badges: seq<Badge>, now: string): (r: seq<Badge>)
    ensures |r| == |badges|
    ensures forall i :: 0 <= i < |r| ==> r[i].kind == badges[i].kind && r[i].earnedDate == now
  {
    seq(|badges|, i requires 0 <= i < |badges| => badges[i].(earnedDate := now))
  }

  lemma RestampAppend(a: seq<Badge>, b: seq<Badge>, now: string)
    ensures Restamp(a + b, now) == Restamp(a, now) + Restamp(b, now)
  {
  }

  lemma FootprintRestamp(perPerson: Number, now1: string, now2: string)
    ensures OptionToSeq(FootprintBadge(perPerson, now1)) == Restamp(OptionToSeq(FootprintBadge(perPerson, now2)), now1)
  {
  }

  lemma ReductionRestamp(entries: seq<MonthlyEntry>, now1: string, now2: string)
    ensures OptionToSeq(ReductionBadge(entries, now1)) == Restamp(OptionToSeq(ReductionBadge(entries, now2)), now1)
  {
  }

  lemma ConsistencyRestamp(count: nat, now1: string, now2: string)
    ensures ConsistencyBadges(count, now1) == Restamp(ConsistencyBadges(count, now2), now1)
  {
    ConsistencyTiers(count, now1);
    ConsistencyTiers(count, now2);
  }

  /** The timestamp only stamps the badges: an evaluation at another time awards the same
      badges, in the same order, worth the same points. */
  lemma TimestampIndependent(entries: seq<MonthlyEntry>, current: EmissionResults, now1: string, now2: string)
    ensures EarnedBadges(entries, current, now1) == Restamp(EarnedBadges(entries, current, now2), now1)
    ensures CalculatePoints(EarnedBadges(entries, current, now1)) == CalculatePoints(EarnedBadges(entries, current, now2))
  {
    var f := OptionToSeq(FootprintBadge(current.perPerson, now2));
    var r := OptionToSeq(ReductionBadge(entries, now2));
    var c := ConsistencyBadges(|entries|, now2);
    FootprintRestamp(current.perPerson, now1, now2);
    ReductionRestamp(entries, now1, now2);
    ConsistencyRestamp(|entries|, now1, now2);
    RestampAppend(f, r, now1);
    RestampAppend(f + r, c, now1);
    var e1 := EarnedBadges(entries, current, now1);
    var e2 := EarnedBadges(entries, current, now2);
    assert e1 == Restamp(e2, now1);
    SameLevelsSamePoints(e1, e2);
  }

  lemma {:induction false} SameLevelsSamePoints(a: seq<Badge>, b: seq<Badge>)
    requires |a| == |b| && forall i :: 0 <= i < |a| ==> a[i].kind == b[i].kind
    ensures CalculatePoints(a) == CalculatePoints(b)
  {
    if a != [] {
      SameLevelsSamePoints(a[..|a| - 1], b[..|b| - 1]);
    }
  }
}
