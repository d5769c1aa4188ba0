/** The monthly tracker: a date-ordered history of emission snapshots, the trend between the
    last two, and the badges the history earns. */
module Tracker {
  import opened Wrappers
  import opened Types
  import opened StableSort
  import opened Quotients
  import Calculations
  import BadgeSystem

  /** Entries are ordered by the timestamp their date parses to. */
  function DateKey(e: MonthlyEntry): int {
    e.date
  }

  /** `[...entries, entry].sort(byDate)`: the engine's sort is stable. */
  function AppendByDate(entries: seq<MonthlyEntry>, entry: MonthlyEntry): (r: seq<MonthlyEntry>)
    ensures |r| == |entries| + 1
  {
    SortBy(entries + [entry], DateKey)
  }

  /** The appended history is date-ordered and holds the old entries plus the new one. */
  lemma AppendByDateSorted(entries: seq<MonthlyEntry>, entry: MonthlyEntry)
    ensures SortedBy(AppendByDate(entries, entry), DateKey)
    ensures multiset(AppendByDate(entries, entry)) == multiset(entries) + multiset{entry}
    ensures |AppendByDate(entries, entry)| == |entries| + 1
  {
    SortBySorted(entries + [entry], DateKey);
    SortByPermutes(entries + [entry], DateKey);
  }

  /** Into a date-ordered history the new entry is inserted, not re-sorted: the old entries
      keep their order, every entry in front of it is no later, every entry behind it is
      later, so it lands behind the entries of its own date. */
  lemma AppendByDateInserts(entries: seq<MonthlyEntry>, entry: MonthlyEntry)
    requires SortedBy(entries, DateKey)
    ensures var n := InsertionPoint(entries, entry, DateKey);
      && AppendByDate(entries, entry) == entries[..n] + [entry] + entries[n..]
      && (forall i :: 0 <= i < n ==> entries[i].date <= entry.date)
      && (forall i :: n <= i < |entries| ==> entries[i].date > entry.date)
  {
    var s := entries + [entry];
    assert s[..|s| - 1] == entries;
    SortBySortedIdentity(entries, DateKey);
    InsertBySplits(entries, entry, DateKey);
    InsertionPointInFront(entries, entry, DateKey);
    InsertionPointBehind(entries, entry, DateKey);
  }

  /** `getTrend`'s result: the change of the total and that change as a percentage of the
      previous total. */
  datatype Trend = Trend(change: int, percentage: Number)

  /** `getTrend`: nothing before the second entry, else the change between the last two. */
  function GetTrend(entries: seq<MonthlyEntry>): (t: Option<Trend>)
    ensures t.None? <==> |entries| < 2
    ensures t.Some? ==> t.value.change + entries[|entries| - 2].results.total == entries[|entries| - 1].results.total
    ensures t.Some? ==> t.value.percentage == PercentOf(t.value.change, entries[|entries| - 2].results.total)
  {
    if |entries| < 2 then None
    else
      var latest := entries[|entries| - 1];
      var previous := entries[|entries| - 2];
      var change := latest.results.total - previous.results.total;
      Some(Trend(change, PercentOf(change, previous.results.total)))
  }

  /** The page shows a falling trend exactly when the latest total is below the previous
      one; over a positive previous total the percentage has the same sign. */
  lemma TrendDirection(entries: seq<MonthlyEntry>)
    requires |entries| >= 2
    ensures GetTrend(entries).value.change < 0 <==>
              entries[|entries| - 1].results.total < entries[|entries| - 2].results.total
    ensures entries[|entries| - 2].results.total > 0 ==>
              (GetTrend(entries).value.percentage.value < 0.0 <==> GetTrend(entries).value.change < 0)
  {
    var t := GetTrend(entries).value;
    if entries[|entries| - 2].results.total > 0 {
      PercentSign(t.change, entries[|entries| - 2].results.total);
    }
  }

  /** The trend and the reduction badge read the same pair of totals: over a non-zero
      previous total the trend percentage is the negated reduction. */
  lemma TrendMirrorsReduction(entries: seq<MonthlyEntry>)
    requires |entries| >= 2 && entries[|entries| - 2].results.total != 0
    ensures GetTrend(entries).value.percentage.value
         == -BadgeSystem.Reduction(entries[|entries| - 2].results.total, entries[|entries| - 1].results.total).value
  {
    var previous := entries[|entries| - 2].results.total;
    var latest := entries[|entries| - 1].results.total;
    var p := GetTrend(entries).value.percentage.value;
    var q := BadgeSystem.Reduction(previous, latest).value;
    assert p * previous as real == (latest - previous) as real * 100.0;
    assert q * previous as real == (previous - latest) as real * 100.0;
    assert (p + q) * previous as real == 0.0;
  }

  /** The tracker page's state. */
  class TrackerPage {
    var entries: seq<MonthlyEntry>
    var showAddForm: bool

    /** Every entry the page adds keeps the history in date order. */
    ghost predicate Valid()
      reads this
    {
      SortedBy(entries, DateKey)
    }

    /** The page opens on the saved history, if any. Only `saveEntries` writes it, and only
        with a history `addEntry` has sorted, so a saved history is date-ordered. */
    constructor(stored: Option<seq<MonthlyEntry>>)
      requires stored.Some? ==> SortedBy(stored.value, DateKey)
      ensures entries == (if stored.Some? then stored.value else []) && !showAddForm
      ensures Valid()
    {
      entries := if stored.Some? then stored.value else [];
      showAddForm := false;
    }

    /** `addEntry`: estimate the data, append the snapshot, re-sort by date, close the form.
        The identifier and the date are the caller's clock readings. On the date-ordered
        history the re-sort inserts the snapshot behind every entry dated on or before it
        and in front of every later one, and the old entries keep their order. */
    method AddEntry(data: HouseholdData, id: string, date: int)
      requires Valid()
      modifies this
      ensures entries == AppendByDate(old(entries), MonthlyEntry(id, date, data, Calculations.CalculateEmissions(data)))
      ensures var n := InsertionPoint(old(entries), MonthlyEntry(id, date, data, Calculations.CalculateEmissions(data)), DateKey);
        && entries == old(entries)[..n] + [MonthlyEntry(id, date, data, Calculations.CalculateEmissions(data))] + old(entries)[n..]
        && (forall i :: 0 <= i < n ==> old(entries)[i].date <= date)
        && (forall i :: n <= i < |old(entries)| ==> old(entries)[i].date > date)
      ensures !showAddForm
      ensures Valid()
    {
      var results := Calculations.CalculateEmissions(data);
      var newEntry := MonthlyEntry(id, date, data, results);
      entries := SortBy(entries + [newEntry], DateKey);
      AppendByDateSorted(old(entries), newEntry);
      AppendByDateInserts(old(entries), newEntry);
      showAddForm := false;
    }

    method OpenAddForm()
      requires Valid()
      modifies this
      ensures showAddForm && entries == old(entries)
      ensures Valid()
    {
      showAddForm := true;
    }

    method CancelAddForm()
      requires Valid()
      modifies this
      ensures !showAddForm && entries == old(entries)
      ensures Valid()
    {
      showAddForm := false;
    }

    /** The "Add Entry" button: adds the saved calculator data if there is any; otherwise
        nothing changes and the form stays open. */
    method AddSavedEntry(saved: Option<HouseholdData>, id: string, date: int)
      requires Valid()
      modifies this
      ensures saved.None? ==> entries == old(entries) && showAddForm == old(showAddForm)
      ensures saved.Some? ==> !showAddForm && entries == AppendByDate(old(entries),
                MonthlyEntry(id, date, saved.value, Calculations.CalculateEmissions(saved.value)))
      ensures Valid()
    {
      if saved.Some? {
        AddEntry(saved.value, id, date);
      }
    }

    /** The badges shown: none for an empty history, else those earned by the history with
        the latest entry's results as the current ones. */
    method CurrentBadges(now: string) returns (badges: seq<Badge>)
      requires Valid()
      ensures |entries| == 0 ==> badges == []
      ensures |entries| > 0 ==> badges == BadgeSystem.EarnedBadges(entries, entries[|entries| - 1].results, now)
    {
      if |entries| > 0 {
        badges := BadgeSystem.CalculateBadges(entries, entries[|entries| - 1].results, now);
      } else {
        badges := [];
      }
    }
  }
}
