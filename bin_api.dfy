/**
 * The two HTTP interfaces, as data: the binlist.net lookup and the
 * OpenStreetMap geocoding search. A request is the value of the call's
 * parameters; a response is the decoded JSON, in which every field may
 * be absent.
 */
module BinApi {
  import opened Wrappers
  import opened BinModel

  datatype CardNumber = CardNumber(length: Option<int> := None, luhn: Option<bool> := None)

  /** The lookup response; it carries no `bin` of its own. */
  datatype BinApiResponse = BinApiResponse(
    number: Option<CardNumber> := None,
    scheme: Option<string> := None,
    cardType: Option<string> := None,
    brand: Option<string> := None,
    prepaid: Option<bool> := None,
    country: Option<Country> := None,
    bank: Option<Bank> := None)

  datatype AddressDetails = AddressDetails(
    city: Option<string> := None,
    town: Option<string> := None,
    state: Option<string> := None,
    country: Option<string> := None)

  /** One geocoding match; `lat` and `lon` arrive as strings, not numbers. */
  datatype GeocodingResult = GeocodingResult(
    lat: Option<string> := None,
    lon: Option<string> := None,
    displayName: Option<string> := None,
    address: Option<AddressDetails> := None)

  /** `GET {bin}` with headers `Accept-Version` and, when present, `Authorization`. */
  datatype LookupRequest = LookupRequest(bin: string, acceptVersion: string, authorization: Option<string>)

  /** `GET search?q=..&format=..&limit=..&addressdetails=..`. */
  datatype GeocodingRequest = GeocodingRequest(query: string, format: string, limit: int, addressDetails: int)

  /** `BinApiService.getBinInfo`, with its default header values. */
  function GetBinInfo(bin: string, acceptVersion: string := "3", apiKey: Option<string> := None): LookupRequest
  {
    LookupRequest(bin, acceptVersion, apiKey)
  }

  /** `GeocodingService.searchLocation`, with its default query parameters. */
  function SearchLocation(query: string, format: string := "json", limit: int := 1, addressDetails: int := 1): GeocodingRequest
  {
    GeocodingRequest(query, format, limit, addressDetails)
  }

  /** A lookup sends protocol version "3" and no credential unless one is given. */
  lemma LookupDefaults(bin: string)
    ensures GetBinInfo(bin) == LookupRequest(bin, "3", None)
  {
  }

  /** A geocoding search asks for JSON, at most one match, with address details. */
  lemma GeocodingDefaults(query: string)
    ensures SearchLocation(query) == GeocodingRequest(query, "json", 1, 1)
  {
  }

  /** Every field of a response defaults to absent, as for a JSON body that has none of them. */
  lemma ResponseDefaultsAbsent()
    ensures BinApiResponse() == BinApiResponse(None, None, None, None, None, None, None)
  {
  }
}
