/**
 * `BinRepositoryImpl`: the lookup resolution flow. It reads the local
 * store first; on a miss it reads the API key, makes one lookup call
 * (with a bearer header when a key is set), may make one geocoding call
 * to enrich the bank, builds the record, writes it through and returns
 * it. When the lookup throws, each kind of exception has its own handler,
 * and every handler but the one for HTTP 404 re-reads the store before
 * it gives up.
 *
 * The outside world is an input: the outcome of each call the flow makes,
 * the parse of a coordinate string, the clock, and what the store holds
 * when a handler re-reads it (another lookup may have written it since the
 * first read). `Resolve` is the flow as a function of these; the method
 * `GetBinInfo` performs it step by step and is proved to agree with it.
 */
module BinRepositoryImpl {
  import opened Wrappers
  import opened Text
  import opened Exceptions
  import opened BinModel
  import opened BinApi
  import opened BinDao
  import opened ApiKeyRepository

  /** What `api.getBinInfo` did: answered with a decoded body, or threw. */
  datatype RemoteOutcome = Responded(response: BinApiResponse) | Threw(exception: Exception)

  /** What `geocodingService.searchLocation` did: answered with a list of matches, or threw. */
  datatype GeocodingOutcome = Matches(results: seq<GeocodingResult>) | GeocodingFailed

  /** Everything one resolution meets outside its own code. */
  datatype Environment = Environment(
    keyFault: Option<Exception>,                   // `apiKeyRepository.getApiKey()` threw this
    remote: RemoteOutcome,                         // the lookup call
    geocoding: GeocodingOutcome,                   // the geocoding call, when one is made
    parseDouble: string -> Option<Coordinate>,     // `String.toDoubleOrNull`
    saveFault: Option<Exception>,                  // `dao.insertBin` threw this
    reread: Option<BinInfo>,                       // what a handler's `dao.getBinByNumber(bin)` returns
    now: int)                                      // `System.currentTimeMillis()`

  /** The re-read is `dao.getBinByNumber(bin)`, a query on the key, so whatever it finds is the record for `bin`. */
  predicate RereadFor(env: Environment, bin: string) {
    env.reread.Some? ==> env.reread.value.bin == bin
  }

  /** Why a lookup failed; each stands for the exception the flow returns in `Result.failure`. */
  datatype LookupError =
    | RateLimited                       // HTTP 429
    | NotFound                          // HTTP 404
    | UpstreamError(code: int)          // any other HTTP status
    | NoConnection                      // an IOException
    | Unexpected(cause: Exception)      // anything else, returned as it was caught
    | InvalidFormat(message: string)    // rejected by the input check before any lookup

  const RateLimitedMessage := "Превышен лимит запросов. Попробуйте позже."
  const NotFoundMessage := "BIN номер не найден"
  const UpstreamErrorPrefix := "Ошибка сети: "
  const NoConnectionMessage := "Нет подключения к интернету"

  /** The `message` of the exception the failure carries. */
  function ErrorMessage(e: LookupError): (m: Option<string>)
    ensures !e.Unexpected? ==> m.Some?
    ensures e.RateLimited? || e.NotFound? || e.UpstreamError? || e.NoConnection? ==> m.value != []
    ensures e.InvalidFormat? ==> m == Some(e.message)
    ensures e.Unexpected? ==> m == Message(e.cause)
  {
    match e
    case RateLimited => Some(RateLimitedMessage)
    case NotFound => Some(NotFoundMessage)
    case UpstreamError(code) => Some(UpstreamErrorPrefix + IntToString(code))
    case NoConnection => Some(NoConnectionMessage)
    case Unexpected(cause) => Message(cause)
    case InvalidFormat(message) => Some(message)
  }

  /** One observable step of a resolution, in the order it happens. */
  datatype Effect =
    | ReadStore(bin: string)
    | ReadApiKey
    | CallLookup(lookup: LookupRequest)
    | CallGeocoding(search: GeocodingRequest)
    | WriteStore(record: BinInfo)

  /** The answer, the steps taken, and the record the store now holds for the key, when a write succeeded. */
  datatype Resolution = Resolution(result: Result<BinInfo, LookupError>, effects: seq<Effect>, stored: Option<BinInfo>)

  /** The `Authorization` header: "Bearer <key>" for a non-empty key, none for the free tier. */
  function AuthorizationHeader(apiKey: string): (h: Option<string>)
    ensures h.Some? <==> apiKey != ""
    ensures h.Some? ==> |h.value| > 7 && h.value[..7] == "Bearer " && h.value[7..] == apiKey
  {
    if apiKey != "" then Some("Bearer " + apiKey) else None
  }

  /** The geocoding query for a named bank: "<name>, <city>" when the city is known, "<name> bank" otherwise. */
  function GeocodingQuery(name: string, city: Option<string>): (q: string)
    ensures |q| > |name| && q[..|name|] == name
    ensures city.Some? ==> q[|name|..] == ", " + city.value
    ensures city.None? ==> q[|name|..] == " bank"
  {
    if city.Some? then name + ", " + city.value else name + " bank"
  }

  /** A coordinate string of a match, parsed; absent when missing or unparsable. */
  function ParsedCoordinate(s: Option<string>, parseDouble: string -> Option<Coordinate>): (c: Option<Coordinate>)
    ensures s.None? ==> c.None?
  {
    if s.Some? then parseDouble(s.value) else None
  }

  /** The city a match offers: its address's city, else its town. */
  function MatchCity(hit: GeocodingResult): Option<string> {
    if hit.address.None? then None
    else if hit.address.value.city.Some? then hit.address.value.city
    else hit.address.value.town
  }

  /**
   * `bank.copy(...)` with the first geocoding match: the city the lookup
   * returned is kept and otherwise taken from the match; the coordinates
   * are always the match's, parsed. Name, url and phone never change.
   */
  function MergeMatch(bank: Bank, hit: GeocodingResult, parseDouble: string -> Option<Coordinate>): (b: Bank)
    ensures b.name == bank.name && b.url == bank.url && b.phone == bank.phone
    ensures bank.city.Some? ==> b.city == bank.city
    ensures bank.city.None? ==> b.city == MatchCity(hit)
    ensures b.latitude == ParsedCoordinate(hit.lat, parseDouble)
    ensures b.longitude == ParsedCoordinate(hit.lon, parseDouble)
  {
    bank.(city := if bank.city.Some? then bank.city else MatchCity(hit),
          latitude := ParsedCoordinate(hit.lat, parseDouble),
          longitude := ParsedCoordinate(hit.lon, parseDouble))
  }

  /** A bank the flow tries to geocode: one with a name. */
  predicate Geocodable(bank: Option<Bank>) {
    bank.Some? && bank.value.name.Some?
  }

  /** The geocoding call made for a bank the lookup returned with a name. */
  function GeocodingCall(bank: Bank): GeocodingRequest
    requires bank.name.Some?
  {
    SearchLocation(GeocodingQuery(bank.name.value, bank.city))
  }

  /**
   * The enrichment step: the bank to store, and the geocoding call made,
   * if any. Only the first match is used; an empty answer or a failed
   * call leaves the bank exactly as the lookup returned it.
   */
  function Enrich(bank: Option<Bank>, geocoding: GeocodingOutcome, parseDouble: string -> Option<Coordinate>): (r: (Option<Bank>, seq<Effect>))
    ensures r.0.Some? <==> bank.Some?
    ensures !Geocodable(bank) ==> r == (bank, [])
    ensures Geocodable(bank) ==> r.1 == [CallGeocoding(GeocodingCall(bank.value))]
    ensures (geocoding.GeocodingFailed? || geocoding.results == []) ==> r.0 == bank
    ensures Geocodable(bank) && geocoding.Matches? && geocoding.results != [] ==>
              r.0 == Some(MergeMatch(bank.value, geocoding.results[0], parseDouble))
  {
    if !Geocodable(bank) then (bank, [])
    else
      var call := [CallGeocoding(GeocodingCall(bank.value))];
      if geocoding.Matches? && geocoding.results != [] then
        (Some(MergeMatch(bank.value, geocoding.results[0], parseDouble)), call)
      else
        (bank, call)
  }

  /** The error a handler reports for an exception when the store has nothing. */
  function ErrorKind(e: Exception): (k: LookupError)
    ensures e.HttpException? && e.code == 429 ==> k == RateLimited
    ensures e.HttpException? && e.code == 404 ==> k == NotFound
    ensures e.HttpException? && e.code != 429 && e.code != 404 ==> k == UpstreamError(e.code)
    ensures e.IOException? ==> k == NoConnection
    ensures e.OtherException? ==> k == Unexpected(e)
  {
    match e
    case HttpException(code, _) =>
      if code == 429 then RateLimited else if code == 404 then NotFound else UpstreamError(code)
    case IOException(_) => NoConnection
    case OtherException(_) => Unexpected(e)
  }

  /** The `catch` clauses: 404 fails at once; every other exception re-reads the store and prefers what it finds. */
  function Recovered(bin: string, e: Exception, reread: Option<BinInfo>, before: seq<Effect>): (o: Resolution)
    ensures o.stored.None?
    ensures e.HttpException? && e.code == 404 ==> o.result == Failure(NotFound) && o.effects == before
    ensures !(e.HttpException? && e.code == 404) ==> o.effects == before + [ReadStore(bin)]
    ensures !(e.HttpException? && e.code == 404) && reread.Some? ==> o.result == Success(reread.value)
    ensures !(e.HttpException? && e.code == 404) && reread.None? ==> o.result == Failure(ErrorKind(e))
    ensures (reread.Some? ==> reread.value.bin == bin) && o.result.Success? ==> o.result.value.bin == bin
  {
    if e.HttpException? && e.code == 404 then
      Resolution(Failure(NotFound), before, None)
    else
      Resolution(if reread.Some? then Success(reread.value) else Failure(ErrorKind(e)), before + [ReadStore(bin)], None)
  }

  /** The record built from a lookup answer: the requested `bin`, the answer's fields, the enriched bank, stamped now. */
  function Assemble(bin: string, response: BinApiResponse, bank: Option<Bank>, now: int): Result<BinInfo, string> {
    NewBinInfo(bin, now, scheme := response.scheme, cardType := response.cardType, brand := response.brand,
               prepaid := response.prepaid, country := response.country, bank := bank)
  }

  /** `getBinInfo(bin)` when the store holds `cached` for `bin` and the key store holds `storedKey`. */
  function Resolve(bin: string, cached: Option<BinInfo>, storedKey: string, env: Environment): (o: Resolution)
    ensures o.effects != [] && o.effects[0] == ReadStore(bin)
    ensures cached.Some? ==> o.result == Success(cached.value)
    ensures o.stored.Some? ==> o.result == Success(o.stored.value) && o.stored.value.bin == bin
    ensures RereadFor(env, bin) && (cached.Some? ==> cached.value.bin == bin) && o.result.Success? ==>
              o.result.value.bin == bin
  {
    if cached.Some? then
      Resolution(Success(cached.value), [ReadStore(bin)], None)
    else
      var keyRead := [ReadStore(bin), ReadApiKey];
      if env.keyFault.Some? then
        Recovered(bin, env.keyFault.value, env.reread, keyRead)
      else
        var sent := keyRead + [CallLookup(BinApi.GetBinInfo(bin, apiKey := AuthorizationHeader(storedKey)))];
        match env.remote
        case Threw(e) => Recovered(bin, e, env.reread, sent)
        case Responded(response) => Answered(bin, response, env, sent)
  }

  /** The rest of `getBinInfo` once the lookup has answered, after the steps `sent`. */
  function Answered(bin: string, response: BinApiResponse, env: Environment, sent: seq<Effect>): (o: Resolution)
    ensures |sent| < |o.effects| && o.effects[..|sent|] == sent
    ensures o.result.Failure? <==> IsBlank(bin) && env.reread.None?
    ensures o.stored.Some? ==> o.result == Success(o.stored.value) && o.stored.value.bin == bin
    ensures o.stored.Some? ==> o.effects[|o.effects| - 1] == WriteStore(o.stored.value)
    ensures RereadFor(env, bin) && o.result.Success? ==> o.result.value.bin == bin
  {
    var (bank, geocoded) := Enrich(response.bank, env.geocoding, env.parseDouble);
    match Assemble(bin, response, bank, env.now)
    case Failure(message) =>
      Recovered(bin, OtherException(Some(message)), env.reread, sent + geocoded)
    case Success(record) =>
      Resolution(Success(record), sent + geocoded + [WriteStore(record)],
                 if env.saveFault.None? then Some(record) else None)
  }

  /** The table after a resolution: unchanged, or with the written record under its key. */
  function AfterWrite(rows: map<string, BinInfo>, stored: Option<BinInfo>): map<string, BinInfo> {
    if stored.Some? then rows[stored.value.bin := stored.value] else rows
  }

  /** How many of `effects` satisfy `p`. */
  function CountWhere(effects: seq<Effect>, p: Effect -> bool): nat
    decreases |effects|
  {
    if effects == [] then 0 else (if p(effects[0]) then 1 else 0) + CountWhere(effects[1..], p)
  }

  predicate IsStoreRead(e: Effect) { e.ReadStore? }
  predicate IsLookupCall(e: Effect) { e.CallLookup? }
  predicate IsGeocodingCall(e: Effect) { e.CallGeocoding? }
  predicate IsStoreWrite(e: Effect) { e.WriteStore? }

  lemma {:induction false} CountWhereAppend(a: seq<Effect>, b: seq<Effect>, p: Effect -> bool)
    ensures CountWhere(a + b, p) == CountWhere(a, p) + CountWhere(b, p)
    decreases |a|
  {
    if a == [] {
      assert a + b == b;
    } else {
      assert (a + b)[1..] == a[1..] + b;
      CountWhereAppend(a[1..], b, p);
    }
  }

  /** Counting over the last step of a resolution. */
  lemma CountWhereOne(x: Effect, p: Effect -> bool)
    ensures CountWhere([x], p) == if p(x) then 1 else 0
  {
    assert [x][1..] == [];
  }

  /** Counting over the first three steps of a miss. */
  lemma CountWhereThree(x: Effect, y: Effect, z: Effect, p: Effect -> bool)
    ensures CountWhere([x, y], p) == (if p(x) then 1 else 0) + (if p(y) then 1 else 0)
    ensures CountWhere([x, y, z], p) == (if p(x) then 1 else 0) + (if p(y) then 1 else 0) + (if p(z) then 1 else 0)
  {
    assert CountWhere([y], p) == (if p(y) then 1 else 0) by { assert [y][1..] == []; }
    assert CountWhere([z], p) == (if p(z) then 1 else 0) by { assert [z][1..] == []; }
    assert CountWhere([y, z], p) == (if p(y) then 1 else 0) + CountWhere([z], p) by { assert [y, z][1..] == [z]; }
    assert CountWhere([x, y], p) == (if p(x) then 1 else 0) + CountWhere([y], p) by { assert [x, y][1..] == [y]; }
    assert CountWhere([x, y, z], p) == (if p(x) then 1 else 0) + CountWhere([y, z], p) by { assert [x, y, z][1..] == [y, z]; }
  }

  /** A cache hit returns the stored record as it is: no key read, no network call, no write. */
  lemma CacheHitShortCircuits(bin: string, cached: Option<BinInfo>, storedKey: string, env: Environment)
    requires cached.Some?
    ensures Resolve(bin, cached, storedKey, env) == Resolution(Success(cached.value), [ReadStore(bin)], None)
  {
  }

  /**
   * On a miss the flow sends exactly one lookup, for the requested `bin`,
   * with protocol version "3" and "Bearer <key>" exactly when a key is set;
   * a hit, or a key store that throws, sends none.
   */
  lemma {:induction false} OneLookupPerMiss(bin: string, cached: Option<BinInfo>, storedKey: string, env: Environment)
    ensures var o := Resolve(bin, cached, storedKey, env);
            CountWhere(o.effects, IsLookupCall) == if cached.None? && env.keyFault.None? then 1 else 0
    ensures var o := Resolve(bin, cached, storedKey, env);
            cached.None? && env.keyFault.None? ==>
              |o.effects| >= 3 &&
              o.effects[..3] == [ReadStore(bin), ReadApiKey,
                                 CallLookup(LookupRequest(bin, "3", if storedKey == "" then None else Some("Bearer " + storedKey)))]
  {
    var o := Resolve(bin, cached, storedKey, env);
    var keyRead := [ReadStore(bin), ReadApiKey];
    var lookup := CallLookup(BinApi.GetBinInfo(bin, apiKey := AuthorizationHeader(storedKey)));
    CountWhereThree(ReadStore(bin), ReadApiKey, lookup, IsLookupCall);
    if cached.None? {
      if env.keyFault.Some? {
        CountWhereAppend(keyRead, [ReadStore(bin)], IsLookupCall);
      } else {
        var sent := keyRead + [lookup];
        assert sent == [ReadStore(bin), ReadApiKey, lookup];
        match env.remote
        case Threw(e) =>
          CountWhereAppend(sent, [ReadStore(bin)], IsLookupCall);
        case Responded(response) =>
          var (bank, geocoded) := Enrich(response.bank, env.geocoding, env.parseDouble);
          assert CountWhere(geocoded, IsLookupCall) == 0;
          CountWhereAppend(sent, geocoded, IsLookupCall);
          match Assemble(bin, response, bank, env.now)
          case Failure(message) =>
            CountWhereAppend(sent + geocoded, [ReadStore(bin)], IsLookupCall);
          case Success(record) =>
            CountWhereAppend(sent + geocoded, [WriteStore(record)], IsLookupCall);
      }
    }
  }

  /**
   * After a successful lookup, one geocoding search is made exactly when
   * the answer names a bank, with the query "<name>, <city>" or "<name> bank".
   */
  lemma {:induction false} GeocodingOnlyForNamedBank(bin: string, storedKey: string, env: Environment)
    requires env.keyFault.None? && env.remote.Responded?
    ensures var o := Resolve(bin, None, storedKey, env);
            var bank := env.remote.response.bank;
            CountWhere(o.effects, IsGeocodingCall) == if Geocodable(bank) then 1 else 0
    ensures var o := Resolve(bin, None, storedKey, env);
            var bank := env.remote.response.bank;
            Geocodable(bank) ==>
              |o.effects| >= 4 &&
              o.effects[3] == CallGeocoding(GeocodingRequest(GeocodingQuery(bank.value.name.value, bank.value.city), "json", 1, 1))
  {
    var response := env.remote.response;
    var lookup := CallLookup(BinApi.GetBinInfo(bin, apiKey := AuthorizationHeader(storedKey)));
    var sent := [ReadStore(bin), ReadApiKey, lookup];
    CountWhereThree(ReadStore(bin), ReadApiKey, lookup, IsGeocodingCall);
    var (bank, geocoded) := Enrich(response.bank, env.geocoding, env.parseDouble);
    assert CountWhere(geocoded, IsGeocodingCall) == if Geocodable(response.bank) then 1 else 0;
    CountWhereAppend(sent, geocoded, IsGeocodingCall);
    match Assemble(bin, response, bank, env.now)
    case Failure(message) =>
      assert Resolve(bin, None, storedKey, env).effects == sent + geocoded + [ReadStore(bin)];
      CountWhereOne(ReadStore(bin), IsGeocodingCall);
      CountWhereAppend(sent + geocoded, [ReadStore(bin)], IsGeocodingCall);
    case Success(record) =>
      assert Resolve(bin, None, storedKey, env).effects == sent + geocoded + [WriteStore(record)];
      CountWhereOne(WriteStore(record), IsGeocodingCall);
      CountWhereAppend(sent + geocoded, [WriteStore(record)], IsGeocodingCall);
  }

  /**
   * A successful lookup yields a record with the requested `bin`, the
   * answer's fields and the enriched bank, stamped with the current time;
   * the record is written last, and once written the store returns it for
   * that `bin`.
   */
  lemma FreshRecordFromResponse(bin: string, storedKey: string, env: Environment, rows: map<string, BinInfo>)
    requires env.keyFault.None? && env.remote.Responded? && !IsBlank(bin)
    ensures var o := Resolve(bin, None, storedKey, env);
            var response := env.remote.response;
            && o.result.Success?
            && o.result.value.bin == bin
            && o.result.value.scheme == response.scheme && o.result.value.cardType == response.cardType
            && o.result.value.brand == response.brand && o.result.value.prepaid == response.prepaid
            && o.result.value.country == response.country
            && o.result.value.bank == Enrich(response.bank, env.geocoding, env.parseDouble).0
            && o.result.value.timestamp == env.now
            && o.effects[|o.effects| - 1] == WriteStore(o.result.value)
            && (env.saveFault.None? ==> Lookup(AfterWrite(rows, o.stored), bin) == Some(o.result.value))
            && (env.saveFault.Some? ==> AfterWrite(rows, o.stored) == rows)
  {
  }

  /** A failing write does not change the answer. */
  lemma SaveFailureInvisible(bin: string, cached: Option<BinInfo>, storedKey: string, env: Environment, fault: Option<Exception>)
    ensures Resolve(bin, cached, storedKey, env.(saveFault := fault)).result == Resolve(bin, cached, storedKey, env).result
  {
  }

  /**
   * Enrichment is best effort: whatever the geocoding call does, the
   * lookup succeeds or fails alike, and when the call fails or finds
   * nothing the bank is stored exactly as the lookup returned it.
   */
  lemma EnrichmentNeverFails(bin: string, cached: Option<BinInfo>, storedKey: string, env: Environment, geocoding: GeocodingOutcome)
    ensures Resolve(bin, cached, storedKey, env.(geocoding := geocoding)).result.Success? ==
            Resolve(bin, cached, storedKey, env).result.Success?
    ensures cached.None? && env.keyFault.None? && env.remote.Responded? && !IsBlank(bin) &&
            (geocoding.GeocodingFailed? || geocoding.results == []) ==>
              Resolve(bin, cached, storedKey, env.(geocoding := geocoding)).result ==
              Success(BinInfo(bin, env.remote.response.scheme, env.remote.response.cardType, env.remote.response.brand,
                              env.remote.response.prepaid, env.remote.response.country, env.remote.response.bank, env.now))
  {
  }

  /** HTTP 404 fails with "BIN номер не найден" and never looks at the store again, whatever it holds now. */
  lemma {:induction false} NotFoundSkipsStore(bin: string, storedKey: string, env: Environment, status: string)
    requires env.keyFault.None? && env.remote == Threw(HttpException(404, status))
    ensures var o := Resolve(bin, None, storedKey, env);
            && o.result == Failure(NotFound)
            && ErrorMessage(o.result.error) == Some("BIN номер не найден")
            && CountWhere(o.effects, IsStoreRead) == 1
            && o.stored.None?
    ensures Resolve(bin, None, storedKey, env) == Resolve(bin, None, storedKey, env.(reread := None))
  {
    var lookup := CallLookup(BinApi.GetBinInfo(bin, apiKey := AuthorizationHeader(storedKey)));
    CountWhereThree(ReadStore(bin), ReadApiKey, lookup, IsStoreRead);
  }

  /**
   * Every other failure of the lookup re-reads the store: a record found
   * there is the answer; otherwise the failure carries the handler's message.
   * Nothing is written.
   */
  lemma {:induction false} FailureFallsBackToStore(bin: string, storedKey: string, env: Environment)
    requires env.keyFault.None? && env.remote.Threw?
    requires !(env.remote.exception.HttpException? && env.remote.exception.code == 404)
    ensures var o := Resolve(bin, None, storedKey, env);
            var e := env.remote.exception;
            && CountWhere(o.effects, IsStoreRead) == 2
            && o.effects[|o.effects| - 1] == ReadStore(bin)
            && o.stored.None?
            && (env.reread.Some? ==> o.result == Success(env.reread.value))
            && (env.reread.None? ==>
                  && o.result.Failure?
                  && ErrorMessage(o.result.error) ==
                       (match e
                        case HttpException(code, _) =>
                          if code == 429 then Some("Превышен лимит запросов. Попробуйте позже.")
                          else Some("Ошибка сети: " + IntToString(code))
                        case IOException(_) => Some("Нет подключения к интернету")
                        case OtherException(message) => message))
  {
    var lookup := CallLookup(BinApi.GetBinInfo(bin, apiKey := AuthorizationHeader(storedKey)));
    CountWhereThree(ReadStore(bin), ReadApiKey, lookup, IsStoreRead);
    var sent := [ReadStore(bin), ReadApiKey, lookup];
    assert Resolve(bin, None, storedKey, env).effects == sent + [ReadStore(bin)];
    CountWhereOne(ReadStore(bin), IsStoreRead);
    CountWhereAppend(sent, [ReadStore(bin)], IsStoreRead);
  }

  class BinRepositoryImpl {
    const dao: BinDao
    const apiKeyRepository: ApiKeyRepository

    constructor (dao: BinDao, apiKeyRepository: ApiKeyRepository)
      ensures this.dao == dao && this.apiKeyRepository == apiKeyRepository
    {
      this.dao := dao;
      this.apiKeyRepository := apiKeyRepository;
    }

    /** `getBinInfo(bin)`: cache, lookup, enrichment, write-through, and the fallback handlers. */
    method GetBinInfo(bin: string, env: Environment) returns (r: Result<BinInfo, LookupError>, effects: seq<Effect>)
      requires dao.Valid() && RereadFor(env, bin)
      modifies dao
      ensures dao.Valid()
      ensures r.Success? ==> r.value.bin == bin
      ensures var o := Resolve(bin, Lookup(old(dao.rows), bin), apiKeyRepository.apiKey, env);
              r == o.result && effects == o.effects && dao.rows == AfterWrite(old(dao.rows), o.stored)
    {
      var cachedBin := dao.GetBinByNumber(bin);
      if cachedBin.Some? {
        r, effects := Success(cachedBin.value), [ReadStore(bin)];
        return;
      }
      r, effects := FetchRemote(bin, env);
    }

    /** The rest of `getBinInfo` after a miss in the store: read the key, ask the service, recover from what it throws. */
    method FetchRemote(bin: string, env: Environment) returns (r: Result<BinInfo, LookupError>, effects: seq<Effect>)
      requires dao.Valid() && RereadFor(env, bin)
      modifies dao
      ensures dao.Valid()
      ensures r.Success? ==> r.value.bin == bin
      ensures var o := Resolve(bin, None, apiKeyRepository.apiKey, env);
              r == o.result && effects == o.effects && dao.rows == AfterWrite(old(dao.rows), o.stored)
    {
      effects := [ReadStore(bin), ReadApiKey];
      var apiKey := apiKeyRepository.GetApiKey(env.keyFault);
      if apiKey.Failure? {
        var recovered := Recovered(bin, apiKey.error, env.reread, effects);
        r, effects := recovered.result, recovered.effects;
        return;
      }
      var authHeader := AuthorizationHeader(apiKey.value);
      effects := effects + [CallLookup(BinApi.GetBinInfo(bin, apiKey := authHeader))];
      if env.remote.Threw? {
        var recovered := Recovered(bin, env.remote.exception, env.reread, effects);
        r, effects := recovered.result, recovered.effects;
        return;
      }
      r, effects := StoreResponse(bin, env.remote.response, env, effects);
    }

    /** The lookup has answered: enrich the bank, build the record, save it, return it. */
    method StoreResponse(bin: string, apiResponse: BinApiResponse, env: Environment, sent: seq<Effect>)
      returns (r: Result<BinInfo, LookupError>, effects: seq<Effect>)
      requires dao.Valid() && RereadFor(env, bin)
      modifies dao
      ensures dao.Valid()
      ensures var o := Answered(bin, apiResponse, env, sent);
              r == o.result && effects == o.effects && dao.rows == AfterWrite(old(dao.rows), o.stored)
    {
      var enhancedBank, geocoded := EnrichBank(apiResponse.bank, env.geocoding, env.parseDouble);
      effects := sent + geocoded;

      var binInfo := NewBinInfo(bin, env.now, scheme := apiResponse.scheme, cardType := apiResponse.cardType,
                                brand := apiResponse.brand, prepaid := apiResponse.prepaid,
                                country := apiResponse.country, bank := enhancedBank);
      if binInfo.Failure? {
        var recovered := Recovered(bin, OtherException(Some(binInfo.error)), env.reread, effects);
        r, effects := recovered.result, recovered.effects;
        return;
      }

      effects := effects + [WriteStore(binInfo.value)];
      SaveBin(binInfo.value, env.saveFault);
      r := Success(binInfo.value);
    }

    /**
     * The enrichment step of `getBinInfo`: a bank with a name is searched
     * for, and the first match, if any, completes it; a failed search keeps
     * the bank as it came.
     */
    method EnrichBank(bank: Option<Bank>, geocoding: GeocodingOutcome, parseDouble: string -> Option<Coordinate>)
      returns (enhancedBank: Option<Bank>, calls: seq<Effect>)
      ensures (enhancedBank, calls) == Enrich(bank, geocoding, parseDouble)
    {
      enhancedBank, calls := bank, [];
      if bank.Some? && bank.value.name.Some? {
        var b := bank.value;
        calls := [CallGeocoding(SearchLocation(GeocodingQuery(b.name.value, b.city)))];
        if geocoding.Matches? && |geocoding.results| > 0 {
          enhancedBank := Some(MergeMatch(b, geocoding.results[0], parseDouble));
        }
      }
    }

    /** `saveBin(binInfo)`: an upsert whose failure is swallowed. */
    method SaveBin(binInfo: BinInfo, fault: Option<Exception>)
      requires dao.Valid()
      modifies dao
      ensures dao.Valid()
      ensures dao.rows == if fault.None? then old(dao.rows)[binInfo.bin := binInfo] else old(dao.rows)
    {
      if fault.None? {
        dao.InsertBin(binInfo);
      }
    }

    /** `getBinByNumber(bin)`: the store only, never the network. */
    method GetBinByNumber(bin: string) returns (r: Option<BinInfo>)
      requires dao.Valid()
      ensures r == Lookup(dao.rows, bin)
      ensures r.Some? ==> r.value.bin == bin
    {
      r := dao.GetBinByNumber(bin);
    }

    /** `getAllBins()`: the current listing of the store, newest first. */
    method GetAllBins() returns (list: seq<BinInfo>)
      requires dao.Valid()
      ensures IsListingOf(dao.rows, list)
    {
      list := dao.GetAllBins();
    }

    /** `clearHistory()`: empties the store, or passes on what the store threw. */
    method ClearHistory(fault: Option<Exception>) returns (r: Result<(), Exception>)
      requires dao.Valid()
      modifies dao
      ensures dao.Valid()
      ensures fault.None? ==> r == Success(()) && dao.rows == map[]
      ensures fault.Some? ==> r == Failure(fault.value) && dao.rows == old(dao.rows)
    {
      if fault.Some? {
        r := Failure(fault.value);
      } else {
        dao.ClearHistory();
        r := Success(());
      }
    }
  }
}
