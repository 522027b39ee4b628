/**
 * `BinDao`, the Room access object for table `bin_history`, as a map from
 * the primary key `bin` to the row. Its SQL fixes the semantics: insert
 * replaces the row with the same key, lookup is by key, the listing is
 * ordered by `timestamp` descending, and delete removes every row.
 */
module BinDao {
  import opened Wrappers
  import opened BinModel

  /** Rows are listed newest first; rows with equal timestamps come in no particular order. */
  ghost predicate SortedByTimestampDesc(list: seq<BinInfo>) {
    forall i, j :: 0 <= i < j < |list| ==> list[i].timestamp >= list[j].timestamp
  }

  /** No two entries share a primary key. */
  ghost predicate DistinctBins(list: seq<BinInfo>) {
    forall i, j :: 0 <= i < j < |list| ==> list[i].bin != list[j].bin
  }

  /** Every row is stored under its own primary key. */
  ghost predicate KeyedByBin(rows: map<string, BinInfo>) {
    forall k :: k in rows ==> rows[k].bin == k
  }

  /** What the table holds under key `bin`, if anything. */
  function Lookup(rows: map<string, BinInfo>, bin: string): Option<BinInfo> {
    if bin in rows then Some(rows[bin]) else None
  }

  /** `list` is a result of `SELECT * FROM bin_history ORDER BY timestamp DESC` on the table `rows`. */
  ghost predicate IsListingOf(rows: map<string, BinInfo>, list: seq<BinInfo>) {
    && SortedByTimestampDesc(list)
    && DistinctBins(list)
    && (forall x :: x in list ==> x.bin in rows && rows[x.bin] == x)
    && (forall k :: k in rows ==> rows[k] in list)
  }

  /** Puts `x` in front of the first entry that is not newer than it. */
  function InsertByTimestamp(list: seq<BinInfo>, x: BinInfo): (r: seq<BinInfo>)
    requires SortedByTimestampDesc(list) && DistinctBins(list)
    requires forall y :: y in list ==> y.bin != x.bin
    ensures SortedByTimestampDesc(r) && DistinctBins(r)
    ensures |r| == |list| + 1
    ensures forall y :: y in r <==> y in list || y == x
  {
    if list == [] || list[0].timestamp <= x.timestamp then
      [x] + list
    else
      var rest := InsertByTimestamp(list[1..], x);
      HeadDominates(list, x, rest);
      [list[0]] + rest
  }

  /** The head of a sorted listing is not older than, and keyed apart from, anything inserted after it. */
  lemma HeadDominates(list: seq<BinInfo>, x: BinInfo, rest: seq<BinInfo>)
    requires list != [] && SortedByTimestampDesc(list) && DistinctBins(list)
    requires x.timestamp < list[0].timestamp && x.bin != list[0].bin
    requires forall y :: y in rest ==> y in list[1..] || y == x
    ensures forall i :: 0 <= i < |rest| ==> rest[i].timestamp <= list[0].timestamp && rest[i].bin != list[0].bin
  {
    forall i | 0 <= i < |rest|
      ensures rest[i].timestamp <= list[0].timestamp && rest[i].bin != list[0].bin
    {
      if rest[i] != x {
        assert rest[i] in list[1..];
        var j :| 0 <= j < |list[1..]| && list[1..][j] == rest[i];
        assert list[j + 1] == rest[i];
      }
    }
  }

  /** A listing holds exactly one entry per row. */
  lemma {:induction false} ListingSize(rows: map<string, BinInfo>, list: seq<BinInfo>)
    requires KeyedByBin(rows) && IsListingOf(rows, list)
    ensures |list| == |rows|
  {
    var keys := set x | x in list :: x.bin;
    assert keys == rows.Keys by {
      forall k | k in rows ensures k in keys {
        assert rows[k] in list;
      }
    }
    DistinctKeysCount(list);
  }

  lemma {:induction false} DistinctKeysCount(list: seq<BinInfo>)
    requires DistinctBins(list)
    ensures |set x | x in list :: x.bin| == |list|
    decreases |list|
  {
    if list != [] {
      var tail := list[1..];
      assert DistinctBins(tail);
      DistinctKeysCount(tail);
      KeysOfCons(list);
      HeadKeyNotInTail(list);
    }
  }

  lemma KeysOfCons(list: seq<BinInfo>)
    requires list != []
    ensures (set x | x in list :: x.bin) == (set x | x in list[1..] :: x.bin) + {list[0].bin}
  {
    assert list == [list[0]] + list[1..];
  }

  lemma HeadKeyNotInTail(list: seq<BinInfo>)
    requires list != [] && DistinctBins(list)
    ensures list[0].bin !in (set x | x in list[1..] :: x.bin)
  {
    var tail := list[1..];
    forall x | x in tail ensures x.bin != list[0].bin {
      var i :| 0 <= i < |tail| && tail[i] == x;
      assert list[i + 1] == x;
    }
  }

  /** After a delete of every row, the listing is empty. */
  lemma EmptyTableListsNothing(list: seq<BinInfo>)
    requires IsListingOf(map[], list)
    ensures list == []
  {
    ListingSize(map[], list);
  }

  class BinDao {
    /** The table `bin_history`, keyed by its primary key. */
    var rows: map<string, BinInfo>

    /** Each row is stored under its own `bin`. */
    ghost predicate Valid()
      reads this
    {
      KeyedByBin(rows)
    }

    constructor ()
      ensures Valid() && rows == map[]
    {
      rows := map[];
    }

    /** `@Insert(onConflict = REPLACE)`: an upsert keyed by `bin`; the new fields win and no other row changes. */
    method InsertBin(binInfo: BinInfo)
      requires Valid()
      modifies this
      ensures Valid()
      ensures rows == old(rows)[binInfo.bin := binInfo]
    {
      rows := rows[binInfo.bin := binInfo];
    }

    /** `SELECT * FROM bin_history WHERE bin = :bin`. */
    method GetBinByNumber(bin: string) returns (r: Option<BinInfo>)
      requires Valid()
      ensures r == Lookup(rows, bin)
      ensures r.Some? <==> bin in rows
      ensures r.Some? ==> r.value.bin == bin
    {
      r := if bin in rows then Some(rows[bin]) else None;
    }

    /** `SELECT * FROM bin_history ORDER BY timestamp DESC`: every row once, newest first. */
    method GetAllBins() returns (list: seq<BinInfo>)
      requires Valid()
      ensures IsListingOf(rows, list)
      ensures |list| == |rows|
    {
      list := [];
      var remaining := rows.Keys;
      while remaining != {}
        invariant remaining <= rows.Keys
        invariant SortedByTimestampDesc(list) && DistinctBins(list)
        invariant forall x :: x in list ==> x.bin in rows && x.bin !in remaining && rows[x.bin] == x
        invariant forall k :: k in rows && k !in remaining ==> rows[k] in list
        decreases remaining
      {
        var k :| k in remaining;
        list := InsertByTimestamp(list, rows[k]);
        remaining := remaining - {k};
      }
      ListingSize(rows, list);
    }

    /** `DELETE FROM bin_history`. */
    method ClearHistory()
      modifies this
      ensures Valid()
      ensures rows == map[]
    {
      rows := map[];
    }
  }
}
