/**
 * `HistoryViewModel`: the state behind the history screen. It keeps the
 * last snapshot of the store (`allBins`) and shows it filtered by the
 * search query; the filter is a case-insensitive substring match on the
 * BIN, the bank name, the country name and the scheme, and it keeps the
 * order of the snapshot.
 */
module HistoryViewModel {
  import opened Wrappers
  import opened Text
  import opened Exceptions
  import opened BinModel
  import opened BinDao
  import opened BinRepositoryImpl

  datatype HistoryUiState = HistoryUiState(
    bins: seq<BinInfo> := [],
    isLoading: bool := false,
    error: Option<string> := None,
    searchQuery: string := "",
    selectedBin: Option<BinInfo> := None)

  const LoadFailedMessage := "Ошибка загрузки истории"
  const ClearFailedPrefix := "Ошибка при очистке истории: "

  /** `field?.contains(query, ignoreCase = true) == true`: an absent field never matches. */
  predicate FieldMatches(field: Option<string>, query: string) {
    field.Some? && ContainsIgnoringCase(field.value, query)
  }

  /** The test `filterBins` applies to one record. */
  predicate MatchesQuery(b: BinInfo, query: string) {
    || ContainsIgnoringCase(b.bin, query)
    || (b.bank.Some? && FieldMatches(b.bank.value.name, query))
    || (b.country.Some? && FieldMatches(b.country.value.name, query))
    || FieldMatches(b.scheme, query)
  }

  /** `bins.filter { MatchesQuery(it, query) }`. */
  function KeepMatching(bins: seq<BinInfo>, query: string): (r: seq<BinInfo>)
    ensures |r| <= |bins|
    ensures forall x :: x in r <==> x in bins && MatchesQuery(x, query)
    decreases |bins|
  {
    if bins == [] then []
    else (if MatchesQuery(bins[0], query) then [bins[0]] else []) + KeepMatching(bins[1..], query)
  }

  /** `filterBins(bins, query)`: every record for an empty query, else the matching ones. */
  function FilterBins(bins: seq<BinInfo>, query: string): (r: seq<BinInfo>)
    ensures query == [] ==> r == bins
    ensures forall x :: x in r <==> x in bins && (query == [] || MatchesQuery(x, query))
  {
    if query == [] then bins else KeepMatching(bins, query)
  }

  /** `r` is `s` with some entries dropped and the rest in their order. */
  ghost predicate SubsequenceOf(r: seq<BinInfo>, s: seq<BinInfo>)
    decreases |s|
  {
    || r == []
    || (s != [] && ((r[0] == s[0] && SubsequenceOf(r[1..], s[1..])) || SubsequenceOf(r, s[1..])))
  }

  /** The filter keeps the records in the order of the snapshot. */
  lemma {:induction false} FilterPreservesOrder(bins: seq<BinInfo>, query: string)
    ensures SubsequenceOf(FilterBins(bins, query), bins)
  {
    if query == [] {
      SubsequenceOfSelf(bins);
    } else {
      KeepMatchingIsSubsequence(bins, query);
    }
  }

  lemma {:induction false} SubsequenceOfSelf(s: seq<BinInfo>)
    ensures SubsequenceOf(s, s)
    decreases |s|
  {
    if s != [] {
      SubsequenceOfSelf(s[1..]);
    }
  }

  lemma {:induction false} KeepMatchingIsSubsequence(bins: seq<BinInfo>, query: string)
    ensures SubsequenceOf(KeepMatching(bins, query), bins)
    decreases |bins|
  {
    if bins != [] {
      KeepMatchingIsSubsequence(bins[1..], query);
      var r := KeepMatching(bins, query);
      if MatchesQuery(bins[0], query) {
        assert r[0] == bins[0] && r[1..] == KeepMatching(bins[1..], query);
      } else {
        assert r == KeepMatching(bins[1..], query);
      }
    }
  }

  /**
   * The early return for an empty query agrees with the filter: every
   * string contains the empty string.
   */
  lemma {:induction false} EmptyQueryMatchesAll(bins: seq<BinInfo>)
    ensures KeepMatching(bins, []) == bins
    decreases |bins|
  {
    if bins != [] {
      assert StartsWithIgnoringCase(bins[0].bin, []);
      assert MatchesQuery(bins[0], []);
      EmptyQueryMatchesAll(bins[1..]);
    }
  }

  /** Records with distinct BINs stay distinct after filtering, so the list's keys are unique. */
  lemma {:induction false} FilterKeepsBinsDistinct(bins: seq<BinInfo>, query: string)
    requires DistinctBins(bins)
    ensures DistinctBins(FilterBins(bins, query))
  {
    if query != [] {
      KeepMatchingKeepsBinsDistinct(bins, query);
    }
  }

  lemma {:induction false} KeepMatchingKeepsBinsDistinct(bins: seq<BinInfo>, query: string)
    requires DistinctBins(bins)
    ensures DistinctBins(KeepMatching(bins, query))
    decreases |bins|
  {
    if bins != [] {
      var tail := bins[1..];
      assert DistinctBins(tail);
      KeepMatchingKeepsBinsDistinct(tail, query);
      var rest := KeepMatching(tail, query);
      forall x | x in rest ensures x.bin != bins[0].bin {
        assert x in tail;
        var i :| 0 <= i < |tail| && tail[i] == x;
        assert bins[i + 1] == x;
      }
    }
  }

  class HistoryViewModel {
    /** The repository behind `GetHistoryUseCase`, which only forwards to it. */
    const repository: BinRepositoryImpl
    /** The last snapshot of the store. */
    var allBins: seq<BinInfo>
    /** `_uiState.value`. */
    var uiState: HistoryUiState

    /** The list on screen is always the snapshot filtered by the query shown, and the snapshot has one record per BIN. */
    ghost predicate Valid()
      reads this
    {
      uiState.bins == FilterBins(allBins, uiState.searchQuery) && DistinctBins(allBins)
    }

    /** Construction starts `loadHistory()`, which shows the loading state until the first snapshot arrives. */
    constructor (repository: BinRepositoryImpl)
      ensures Valid()
      ensures this.repository == repository && allBins == [] && uiState == HistoryUiState(isLoading := true)
    {
      this.repository := repository;
      allBins := [];
      uiState := HistoryUiState(isLoading := true);
    }

    /** `loadHistory()` / `refreshHistory()`: shows the loading state; the snapshots follow as events. */
    method LoadHistory()
      requires Valid()
      modifies this
      ensures Valid()
      ensures allBins == old(allBins) && uiState == old(uiState).(isLoading := true)
    {
      uiState := uiState.(isLoading := true);
    }

    /**
     * A snapshot of the store arrives: it replaces `allBins` and is shown
     * filtered by the current query; loading and any error are cleared.
     */
    method OnHistoryEmitted()
      requires Valid() && repository.dao.Valid()
      modifies this
      ensures Valid()
      ensures IsListingOf(repository.dao.rows, allBins)
      ensures uiState == old(uiState).(isLoading := false, bins := FilterBins(allBins, old(uiState).searchQuery), error := None)
    {
      var bins := repository.GetAllBins();
      allBins := bins;
      uiState := uiState.(isLoading := false, bins := FilterBins(bins, uiState.searchQuery), error := None);
    }

    /** The snapshot flow threw: loading stops and the error is the exception's message, or a fixed one. */
    method OnHistoryFailed(e: Exception)
      requires Valid()
      modifies this
      ensures Valid()
      ensures allBins == old(allBins)
      ensures uiState == old(uiState).(isLoading := false, error := Some(Message(e).GetOr(LoadFailedMessage)))
    {
      uiState := uiState.(isLoading := false, error := Some(Message(e).GetOr(LoadFailedMessage)));
    }

    /** `onSearchQueryChanged(query)`: the query and the list shown change together. */
    method OnSearchQueryChanged(query: string)
      requires Valid()
      modifies this
      ensures Valid()
      ensures allBins == old(allBins)
      ensures uiState == old(uiState).(searchQuery := query, bins := FilterBins(allBins, query))
    {
      uiState := uiState.(searchQuery := query, bins := FilterBins(allBins, query));
    }

    /**
     * `clearHistory()`: empties the store, then the snapshot, the list and
     * the query; when the store throws, only the error is set.
     */
    method ClearHistory(fault: Option<Exception>)
      requires Valid() && repository.dao.Valid()
      modifies this, repository.dao
      ensures Valid() && repository.dao.Valid()
      ensures fault.None? ==>
                && repository.dao.rows == map[]
                && allBins == []
                && uiState == old(uiState).(bins := [], searchQuery := "", error := None)
      ensures fault.Some? ==>
                && repository.dao.rows == old(repository.dao.rows)
                && allBins == old(allBins)
                && uiState == old(uiState).(error := Some(ClearFailedPrefix + Rendered(Message(fault.value))))
    {
      var r := repository.ClearHistory(fault);
      match r {
        case Success(_) =>
          allBins := [];
          uiState := uiState.(bins := [], searchQuery := "", error := None);
        case Failure(e) =>
          uiState := uiState.(error := Some(ClearFailedPrefix + Rendered(Message(e))));
      }
    }

    /** `clearError()`. */
    method ClearError()
      requires Valid()
      modifies this
      ensures Valid()
      ensures allBins == old(allBins) && uiState == old(uiState).(error := None)
    {
      uiState := uiState.(error := None);
    }

    /** `onBinClick(bin)`: opens the detail of `bin`. */
    method OnBinClick(bin: BinInfo)
      requires Valid()
      modifies this
      ensures Valid()
      ensures allBins == old(allBins) && uiState == old(uiState).(selectedBin := Some(bin))
    {
      uiState := uiState.(selectedBin := Some(bin));
    }

    /** `onDetailDismiss()`: closes the detail. */
    method OnDetailDismiss()
      requires Valid()
      modifies this
      ensures Valid()
      ensures allBins == old(allBins) && uiState == old(uiState).(selectedBin := None)
    {
      uiState := uiState.(selectedBin := None);
    }
  }

  /** After a successful clear the store is empty, so the next snapshot, and the list, are empty too. */
  lemma SnapshotAfterClearIsEmpty(list: seq<BinInfo>, query: string)
    requires IsListingOf(map[], list)
    ensures list == [] && FilterBins(list, query) == []
  {
    EmptyTableListsNothing(list);
  }
}
