/**
 * `CheckBinUseCase`: the input guard in front of the repository. A BIN
 * must have 6 to 8 characters, tested first, and only digits, tested
 * second; a rejected BIN fails with the guard's message and the
 * repository is never asked.
 */
module CheckBinUseCase {
  import opened Wrappers
  import opened Text
  import opened BinModel
  import opened BinDao
  import opened BinRepositoryImpl

  const LengthMessage := "BIN должен содержать от 6 до 8 цифр"
  const DigitsMessage := "BIN должен содержать только цифры"

  /** A BIN the guard lets through. */
  predicate WellFormed(bin: string) {
    6 <= |bin| <= 8 && AllDigits(bin)
  }

  /** The guard's verdict: no message for a well-formed BIN, else the message of the first test that fails. */
  function FormatError(bin: string): (m: Option<string>)
    ensures m.None? <==> WellFormed(bin)
    ensures m.Some? ==> m.value == LengthMessage || m.value == DigitsMessage
  {
    if |bin| < 6 || |bin| > 8 then Some(LengthMessage)
    else if !AllDigits(bin) then Some(DigitsMessage)
    else None
  }

  /** `invoke(bin)` when the store holds `cached` for `bin` and the key store holds `storedKey`. */
  function Check(bin: string, cached: Option<BinInfo>, storedKey: string, env: Environment): (o: Resolution)
    ensures o.effects == [] <==> !WellFormed(bin)
    ensures !WellFormed(bin) ==> o.result == Failure(InvalidFormat(FormatError(bin).value))
    ensures o.stored.Some? ==> WellFormed(bin) && o.stored.value.bin == bin
    ensures RereadFor(env, bin) && (cached.Some? ==> cached.value.bin == bin) && o.result.Success? ==>
              o.result.value.bin == bin
  {
    match FormatError(bin)
    case Some(message) => Resolution(Failure(InvalidFormat(message)), [], None)
    case None => Resolve(bin, cached, storedKey, env)
  }

  /** A length outside 6..8 is reported as a length error whatever the characters are. */
  lemma LengthCheckedFirst(bin: string)
    requires |bin| < 6 || |bin| > 8
    ensures FormatError(bin) == Some(LengthMessage)
  {
  }

  /** A string of the right length with a non-digit in it is reported as a digits error. */
  lemma DigitsCheckedSecond(bin: string, i: int)
    requires 6 <= |bin| <= 8 && 0 <= i < |bin| && !IsDigit(bin[i])
    ensures FormatError(bin) == Some(DigitsMessage)
  {
  }

  /**
   * A rejected BIN fails with the guard's message as the exception message,
   * and the repository is never asked: nothing is read, sent or written.
   */
  lemma InvalidNeverReachesRepository(bin: string, cached: Option<BinInfo>, storedKey: string, env: Environment)
    requires !WellFormed(bin)
    ensures var o := Check(bin, cached, storedKey, env);
            && o.result.Failure?
            && ErrorMessage(o.result.error) == FormatError(bin)
            && o.effects == []
            && o.stored.None?
  {
  }

  /** A BIN of digits only is never blank, so it passes the record's own non-blank check. */
  lemma WellFormedIsNotBlank(bin: string)
    requires WellFormed(bin)
    ensures !IsBlank(bin)
  {
    assert !IsWhitespace(bin[0]);
  }

  /**
   * Behind the guard the record can always be built: once the lookup
   * answers, the result is a success whatever the geocoding call did,
   * and it carries the BIN that was asked for.
   */
  lemma GuardedLookupSucceeds(bin: string, storedKey: string, env: Environment)
    requires WellFormed(bin) && env.keyFault.None? && env.remote.Responded?
    ensures var o := Check(bin, None, storedKey, env);
            o.result.Success? && o.result.value.bin == bin
  {
    WellFormedIsNotBlank(bin);
    FreshRecordFromResponse(bin, storedKey, env, map[]);
  }

  class CheckBinUseCase {
    const repository: BinRepositoryImpl

    constructor (repository: BinRepositoryImpl)
      ensures this.repository == repository
    {
      this.repository := repository;
    }

    /** `invoke(bin)`: the guard, then `repository.getBinInfo(bin)` for a well-formed BIN. */
    method Invoke(bin: string, env: Environment) returns (r: Result<BinInfo, LookupError>, effects: seq<Effect>)
      requires repository.dao.Valid() && RereadFor(env, bin)
      modifies repository.dao
      ensures repository.dao.Valid()
      ensures r.Success? ==> r.value.bin == bin
      ensures var o := Check(bin, Lookup(old(repository.dao.rows), bin), repository.apiKeyRepository.apiKey, env);
              r == o.result && effects == o.effects && repository.dao.rows == AfterWrite(old(repository.dao.rows), o.stored)
    {
      var formatError := FormatError(bin);
      if formatError.Some? {
        r, effects := Failure(InvalidFormat(formatError.value)), [];
        return;
      }
      r, effects := repository.GetBinInfo(bin, env);
    }
  }
}
