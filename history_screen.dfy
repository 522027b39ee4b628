/**
 * The decision rules of the history screen: which of its four contents
 * it shows, how the list is keyed, and how a record's age is written.
 */
module HistoryScreen {
  import opened Wrappers
  import opened Text
  import opened BinModel
  import opened BinDao
  import opened HistoryViewModel

  /** What the body of the screen shows. */
  datatype HistoryContent = Loading | EmptyHistory | NoSearchResults | HistoryList(bins: seq<BinInfo>)

  /** The `when` over the state: loading first, then the two empty cases, then the list. */
  function SelectContent(s: HistoryUiState): (c: HistoryContent)
    ensures c == Loading <==> s.isLoading
    ensures c == EmptyHistory <==> !s.isLoading && s.bins == [] && s.searchQuery == []
    ensures c == NoSearchResults <==> !s.isLoading && s.bins == [] && s.searchQuery != []
    ensures c.HistoryList? <==> !s.isLoading && s.bins != []
    ensures c.HistoryList? ==> c.bins == s.bins
  {
    if s.isLoading then Loading
    else if s.bins == [] && s.searchQuery == [] then EmptyHistory
    else if s.bins == [] && s.searchQuery != [] then NoSearchResults
    else HistoryList(s.bins)
  }

  /**
   * With the view model's invariant, the empty state means the store
   * snapshot itself is empty, and "no results" means that no record of
   * the snapshot, if it has any, matches the query.
   */
  lemma EmptyStatesMeanWhatTheySay(allBins: seq<BinInfo>, s: HistoryUiState)
    requires s.bins == FilterBins(allBins, s.searchQuery)
    ensures SelectContent(s) == EmptyHistory ==> allBins == []
    ensures SelectContent(s) == NoSearchResults ==> forall x :: x in allBins ==> !MatchesQuery(x, s.searchQuery)
  {
  }

  /** The keys of the list's items, `bin.bin` for each record. */
  function ItemKeys(bins: seq<BinInfo>): (keys: seq<string>)
    ensures |keys| == |bins| && forall i :: 0 <= i < |bins| ==> keys[i] == bins[i].bin
  {
    seq(|bins|, i requires 0 <= i < |bins| => bins[i].bin)
  }

  /** The list's item keys are unique, as the lazy list requires, for every query. */
  lemma ItemKeysUnique(allBins: seq<BinInfo>, query: string)
    requires DistinctBins(allBins)
    ensures var keys := ItemKeys(FilterBins(allBins, query));
            forall i, j :: 0 <= i < j < |keys| ==> keys[i] != keys[j]
  {
    FilterKeepsBinsDistinct(allBins, query);
  }

  const HourMillis := 60 * 60 * 1000
  const DayMillis := 24 * 60 * 60 * 1000
  const WeekMillis := 7 * 24 * 60 * 60 * 1000

  /** The bucket a record's age falls in. */
  datatype Elapsed = JustNow | HoursAgo(hours: int) | DaysAgo(days: int) | OnDate

  /** The `when` over `diff = now - timestamp`, in milliseconds, tested in order. */
  function Bucket(timestamp: int, now: int): (e: Elapsed)
    ensures e.JustNow? <==> now - timestamp < HourMillis
    ensures e.HoursAgo? <==> HourMillis <= now - timestamp < DayMillis
    ensures e.DaysAgo? <==> DayMillis <= now - timestamp < WeekMillis
    ensures e.OnDate? <==> now - timestamp >= WeekMillis
    ensures e.HoursAgo? ==> 1 <= e.hours <= 23 && e.hours * HourMillis <= now - timestamp < (e.hours + 1) * HourMillis
    ensures e.DaysAgo? ==> 1 <= e.days <= 6 && e.days * DayMillis <= now - timestamp < (e.days + 1) * DayMillis
  {
    var diff := now - timestamp;
    if diff < HourMillis then JustNow
    else if diff < DayMillis then HoursAgo(diff / HourMillis)
    else if diff < WeekMillis then DaysAgo(diff / DayMillis)
    else OnDate
  }

  /** `formatTimestamp(timestamp)` with the clock and the locale's "dd.MM.yy" date format as inputs. */
  function FormatTimestamp(timestamp: int, now: int, formatDate: int -> string): (text: string)
    ensures now - timestamp < HourMillis ==> text == "только что"
    ensures HourMillis <= now - timestamp < DayMillis ==> text == NatToString((now - timestamp) / HourMillis) + " ч назад"
    ensures DayMillis <= now - timestamp < WeekMillis ==> text == NatToString((now - timestamp) / DayMillis) + " дн назад"
    ensures now - timestamp >= WeekMillis ==> text == formatDate(timestamp)
  {
    match Bucket(timestamp, now)
    case JustNow => "только что"
    case HoursAgo(h) => NatToString(h) + " ч назад"
    case DaysAgo(d) => NatToString(d) + " дн назад"
    case OnDate => formatDate(timestamp)
  }

  /** The order of the buckets, youngest first. */
  function Rank(e: Elapsed): nat {
    match e
    case JustNow => 0
    case HoursAgo(h) => 1
    case DaysAgo(d) => 2
    case OnDate => 3
  }

  /** An older record never lands in a younger bucket, and within a bucket its count is not smaller. */
  lemma BucketMonotonic(older: int, newer: int, now: int)
    requires older <= newer
    ensures Rank(Bucket(newer, now)) <= Rank(Bucket(older, now))
    ensures Bucket(newer, now).HoursAgo? && Bucket(older, now).HoursAgo? ==>
              Bucket(newer, now).hours <= Bucket(older, now).hours
    ensures Bucket(newer, now).DaysAgo? && Bucket(older, now).DaysAgo? ==>
              Bucket(newer, now).days <= Bucket(older, now).days
  {
    // Each count is pinned between two multiples of its unit by the contract of `Bucket`.
  }

  /** A record from the future, or from less than an hour ago, is "только что". */
  lemma RecentIsJustNow(timestamp: int, now: int, formatDate: int -> string)
    requires now - timestamp < HourMillis
    ensures FormatTimestamp(timestamp, now, formatDate) == "только что"
  {
  }

  /**
   * The hour text names the whole hours elapsed, and reading its number
   * back gives that count: "5 ч назад" is shown for 5 to 6 hours.
   */
  lemma {:induction false} HoursLabelRoundTrip(timestamp: int, now: int, formatDate: int -> string)
    requires HourMillis <= now - timestamp < DayMillis
    ensures var text := FormatTimestamp(timestamp, now, formatDate);
            var n := (now - timestamp) / HourMillis;
            && 1 <= n <= 23
            && |text| > 8 && text[|text| - 8..] == " ч назад"
            && AllDigits(text[..|text| - 8])
            && ParseNat(text[..|text| - 8]) == n
  {
    var n := (now - timestamp) / HourMillis;
    var text := FormatTimestamp(timestamp, now, formatDate);
    assert text == NatToString(n) + " ч назад";
    assert text[..|text| - 8] == NatToString(n);
    ParseNatToString(n);
  }

  /** Likewise the day text: "3 дн назад" is shown for 3 to 4 days. */
  lemma {:induction false} DaysLabelRoundTrip(timestamp: int, now: int, formatDate: int -> string)
    requires DayMillis <= now - timestamp < WeekMillis
    ensures var text := FormatTimestamp(timestamp, now, formatDate);
            var n := (now - timestamp) / DayMillis;
            && 1 <= n <= 6
            && |text| > 9 && text[|text| - 9..] == " дн назад"
            && AllDigits(text[..|text| - 9])
            && ParseNat(text[..|text| - 9]) == n
  {
    var n := (now - timestamp) / DayMillis;
    var text := FormatTimestamp(timestamp, now, formatDate);
    assert text == NatToString(n) + " дн назад";
    assert text[..|text| - 9] == NatToString(n);
    ParseNatToString(n);
  }
}
