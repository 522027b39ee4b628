/**
 * The domain records: `BinInfo`, the row of table `bin_history` whose
 * primary key is `bin`, and its nested `Country` and `Bank` values.
 * Every field but `bin` and `timestamp` is independently optional.
 */
module BinModel {
  import opened Wrappers
  import opened Text

  /** A Kotlin `Double` coordinate. The model only carries and compares coordinates, it never computes with them. */
  type Coordinate = real

  datatype Country = Country(
    numeric: Option<string> := None,
    alpha2: Option<string> := None,
    name: Option<string> := None,
    emoji: Option<string> := None,
    currency: Option<string> := None,
    latitude: Option<Coordinate> := None,
    longitude: Option<Coordinate> := None)

  datatype Bank = Bank(
    name: Option<string> := None,
    url: Option<string> := None,
    phone: Option<string> := None,
    city: Option<string> := None,
    latitude: Option<Coordinate> := None,
    longitude: Option<Coordinate> := None)

  /** A row of `bin_history`. `cardType` is the Kotlin property `type`; `timestamp` is in epoch milliseconds. */
  datatype BinInfo = BinInfo(
    bin: string,
    scheme: Option<string>,
    cardType: Option<string>,
    brand: Option<string>,
    prepaid: Option<bool>,
    country: Option<Country>,
    bank: Option<Bank>,
    timestamp: int)

  const BlankBinMessage := "BIN cannot be empty"

  /**
   * The `BinInfo` constructor, whose `init` block rejects a blank `bin`
   * with an IllegalArgumentException. An omitted `timestamp` is the
   * creation time, `now`; every omitted optional field is absent.
   */
  function NewBinInfo(
    bin: string,
    now: int,
    scheme: Option<string> := None,
    cardType: Option<string> := None,
    brand: Option<string> := None,
    prepaid: Option<bool> := None,
    country: Option<Country> := None,
    bank: Option<Bank> := None,
    timestamp: Option<int> := None): (r: Result<BinInfo, string>)
    ensures r.Failure? <==> IsBlank(bin)
    ensures r.Failure? ==> r.error == BlankBinMessage
    ensures r.Success? ==> r.value.bin == bin && r.value.timestamp == timestamp.GetOr(now)
    ensures r.Success? ==> r.value.scheme == scheme && r.value.cardType == cardType && r.value.brand == brand
    ensures r.Success? ==> r.value.prepaid == prepaid && r.value.country == country && r.value.bank == bank
  {
    if IsBlank(bin) then Failure(BlankBinMessage)
    else Success(BinInfo(bin, scheme, cardType, brand, prepaid, country, bank, timestamp.GetOr(now)))
  }

  /** `BinInfo(bin)` with every default taken: all optional fields absent, stamped with the creation time. */
  lemma DefaultsAbsent(bin: string, now: int)
    requires !IsBlank(bin)
    ensures NewBinInfo(bin, now) == Success(BinInfo(bin, None, None, None, None, None, None, now))
  {
  }

  /** An empty or all-whitespace `bin` can never be constructed. */
  lemma BlankBinRejected(bin: string, now: int, timestamp: Option<int>)
    requires IsBlank(bin)
    ensures NewBinInfo(bin, now, timestamp := timestamp) == Failure(BlankBinMessage)
  {
  }
}
