/**
 * `BinInputViewModel`: the state behind the BIN input screen. Typing
 * keeps only the digits, enables the check button for 6 to 8 of them and
 * picks a validation message; `checkBin` re-checks the input, shows the
 * loading state and then the outcome of the use case.
 */
module BinInputViewModel {
  import opened Wrappers
  import opened Text
  import opened BinModel
  import opened BinDao
  import opened BinRepositoryImpl
  import opened CheckBinUseCase

  datatype BinInputUiState = BinInputUiState(
    binInput: string := "",
    isLoading: bool := false,
    binInfo: Option<BinInfo> := None,
    error: Option<string> := None,
    validationError: Option<string> := None,
    isButtonEnabled: bool := false)

  const TooShortMessage := "BIN должен содержать минимум 6 цифр"
  const TooLongMessage := "BIN не может содержать более 8 цифр"
  const NotDigitsMessage := "BIN должен содержать только цифры"
  const BadFormatMessage := "Неверный формат BIN номера"
  const FallbackErrorMessage := "Произошла ошибка"

  /** `s.filter { it.isDigit() }`. */
  function DigitsOnly(s: string): (r: string)
    ensures AllDigits(r) && |r| <= |s|
    decreases |s|
  {
    if s == [] then []
    else (if IsDigit(s[0]) then [s[0]] else []) + DigitsOnly(s[1..])
  }

  /** The filter keeps exactly the digits of its input: every digit of `s` and nothing else. */
  lemma {:induction false} DigitsOnlyKeepsDigits(s: string)
    ensures forall c :: c in DigitsOnly(s) <==> c in s && IsDigit(c)
    decreases |s|
  {
    if s != [] {
      DigitsOnlyKeepsDigits(s[1..]);
      assert s == [s[0]] + s[1..];
    }
  }

  /** A single character is kept exactly when it is a digit. */
  lemma DigitsOnlySingleton(c: char)
    ensures DigitsOnly([c]) == if IsDigit(c) then [c] else []
  {
    assert [c][1..] == [];
  }

  /** Filtering a concatenation filters each part: the digits keep their order. */
  lemma {:induction false} DigitsOnlyAppend(a: string, b: string)
    ensures DigitsOnly(a + b) == DigitsOnly(a) + DigitsOnly(b)
    decreases |a|
  {
    if a == [] {
      assert a + b == b;
    } else {
      var head := if IsDigit(a[0]) then [a[0]] else [];
      assert (a + b)[0] == a[0] && (a + b)[1..] == a[1..] + b;
      assert DigitsOnly(a + b) == head + DigitsOnly(a[1..] + b);
      DigitsOnlyAppend(a[1..], b);
      assert DigitsOnly(a) == head + DigitsOnly(a[1..]);
    }
  }

  /** A string of digits passes the filter unchanged, and only such a string does. */
  lemma {:induction false} DigitsOnlyIdentity(s: string)
    ensures DigitsOnly(s) == s <==> AllDigits(s)
    decreases |s|
  {
    if s != [] {
      DigitsOnlyIdentity(s[1..]);
      if !IsDigit(s[0]) {
        assert |DigitsOnly(s)| < |s|;
      }
    }
  }

  /** Filtering twice is filtering once. */
  lemma DigitsOnlyIdempotent(s: string)
    ensures DigitsOnly(DigitsOnly(s)) == DigitsOnly(s)
  {
    DigitsOnlyIdentity(DigitsOnly(s));
  }

  /** The validation message for a filtered input, tested in the source's order. */
  function ValidationError(filtered: string): (m: Option<string>)
    ensures m.None? <==> filtered == [] || WellFormed(filtered)
    ensures 0 < |filtered| < 6 ==> m == Some(TooShortMessage)
    ensures |filtered| > 8 ==> m == Some(TooLongMessage)
    ensures m.Some? ==> m.value == TooShortMessage || m.value == TooLongMessage || m.value == NotDigitsMessage
  {
    if filtered != [] && |filtered| < 6 then Some(TooShortMessage)
    else if |filtered| > 8 then Some(TooLongMessage)
    else if filtered != [] && !AllDigits(filtered) then Some(NotDigitsMessage)
    else None
  }

  /**
   * For a typed input: the message is the short one for 1 to 5 digits, the
   * long one for more than 8, and absent otherwise; the digits-only
   * message is never shown, because the filter has already removed every
   * non-digit.
   */
  lemma ValidationOfTypedInput(typed: string)
    ensures var f := DigitsOnly(typed);
            && (ValidationError(f) == Some(TooShortMessage) <==> 0 < |f| < 6)
            && (ValidationError(f) == Some(TooLongMessage) <==> |f| > 8)
            && (ValidationError(f).None? <==> f == [] || 6 <= |f| <= 8)
            && ValidationError(f) != Some(NotDigitsMessage)
  {
  }

  /** On a non-empty input the button is enabled exactly when no validation message is shown. */
  lemma ButtonEnabledIffNoMessage(typed: string)
    requires DigitsOnly(typed) != []
    ensures WellFormed(DigitsOnly(typed)) <==> ValidationError(DigitsOnly(typed)).None?
  {
  }

  /** The state once the use case has answered. */
  function AfterLookup(s: BinInputUiState, result: Result<BinInfo, LookupError>): (t: BinInputUiState)
    ensures !t.isLoading
    ensures t.binInfo.Some? <==> result.Success?
    ensures result.Success? ==> t.binInfo == Some(result.value) && t.error.None?
    ensures result.Failure? ==> t.error == Some(ErrorMessage(result.error).GetOr(FallbackErrorMessage))
    ensures t.binInput == s.binInput && t.validationError == s.validationError && t.isButtonEnabled == s.isButtonEnabled
  {
    match result
    case Success(info) => s.(isLoading := false, binInfo := Some(info), error := None)
    case Failure(e) => s.(isLoading := false, error := Some(ErrorMessage(e).GetOr(FallbackErrorMessage)), binInfo := None)
  }

  /** A digits-only input is its own trim, so `checkBin` sends what was typed. */
  lemma TrimKeepsDigits(s: string)
    requires AllDigits(s)
    ensures Trim(s) == s
  {
    if s != [] {
      assert !IsWhitespace(s[0]) && !IsWhitespace(s[|s| - 1]);
    }
  }

  class BinInputViewModel {
    const checkBinUseCase: CheckBinUseCase
    /** `_uiState.value`. */
    var uiState: BinInputUiState

    constructor (checkBinUseCase: CheckBinUseCase)
      ensures this.checkBinUseCase == checkBinUseCase && uiState == BinInputUiState()
    {
      this.checkBinUseCase := checkBinUseCase;
      uiState := BinInputUiState();
    }

    /** `onBinInputChanged(bin)`: keeps the digits, and sets the button and the validation message from them. */
    method OnBinInputChanged(bin: string)
      modifies this
      ensures var f := DigitsOnly(bin);
              uiState == old(uiState).(binInput := f, isButtonEnabled := WellFormed(f), validationError := ValidationError(f))
    {
      var filteredBin := DigitsOnly(bin);
      var isValid := 6 <= |filteredBin| <= 8 && AllDigits(filteredBin);
      uiState := uiState.(binInput := filteredBin, isButtonEnabled := isValid, validationError := ValidationError(filteredBin));
    }

    /**
     * `checkBin()`, with the launched coroutine run to its end. `emitted`
     * is the sequence of states the screen observes. An input that is
     * empty after trimming does nothing; a malformed one only sets the
     * error; otherwise the loading state is shown, then the outcome.
     */
    method CheckBin(env: Environment) returns (emitted: seq<BinInputUiState>)
      requires checkBinUseCase.repository.dao.Valid() && RereadFor(env, Trim(uiState.binInput))
      modifies this, checkBinUseCase.repository.dao
      ensures checkBinUseCase.repository.dao.Valid()
      ensures Trim(old(uiState).binInput) == [] ==>
                emitted == [] && uiState == old(uiState) &&
                checkBinUseCase.repository.dao.rows == old(checkBinUseCase.repository.dao.rows)
      ensures Trim(old(uiState).binInput) != [] && !WellFormed(Trim(old(uiState).binInput)) ==>
                emitted == [uiState] && uiState == old(uiState).(error := Some(BadFormatMessage)) &&
                checkBinUseCase.repository.dao.rows == old(checkBinUseCase.repository.dao.rows)
      ensures WellFormed(Trim(old(uiState).binInput)) ==>
                var bin := Trim(old(uiState).binInput);
                var rows := old(checkBinUseCase.repository.dao.rows);
                var loading := old(uiState).(isLoading := true, error := None, binInfo := None);
                var o := Check(bin, Lookup(rows, bin), checkBinUseCase.repository.apiKeyRepository.apiKey, env);
                && emitted == [loading, AfterLookup(loading, o.result)]
                && uiState == AfterLookup(loading, o.result)
                && checkBinUseCase.repository.dao.rows == AfterWrite(rows, o.stored)
    {
      var bin := Trim(uiState.binInput);
      if bin == [] {
        return [];
      }
      if !WellFormed(bin) {
        uiState := uiState.(error := Some(BadFormatMessage));
        return [uiState];
      }
      var loading := Submit(bin, env);
      emitted := [loading, uiState];
    }

    /** The coroutine `checkBin()` launches for a well-formed `bin`: the loading state, then the outcome of the use case. */
    method Submit(bin: string, env: Environment) returns (loading: BinInputUiState)
      requires checkBinUseCase.repository.dao.Valid() && RereadFor(env, bin)
      modifies this, checkBinUseCase.repository.dao
      ensures checkBinUseCase.repository.dao.Valid()
      ensures loading == old(uiState).(isLoading := true, error := None, binInfo := None)
      ensures var rows := old(checkBinUseCase.repository.dao.rows);
              var o := Check(bin, Lookup(rows, bin), checkBinUseCase.repository.apiKeyRepository.apiKey, env);
              && uiState == AfterLookup(loading, o.result)
              && checkBinUseCase.repository.dao.rows == AfterWrite(rows, o.stored)
    {
      loading := uiState.(isLoading := true, error := None, binInfo := None);
      uiState := loading;
      var result, _ := checkBinUseCase.Invoke(bin, env);
      uiState := AfterLookup(loading, result);
    }

    /** `clearError()`. */
    method ClearError()
      modifies this
      ensures uiState == old(uiState).(error := None)
    {
      uiState := uiState.(error := None);
    }
  }

  /**
   * For an input set by typing, `checkBin` sends the input as it is, and
   * its format check can fail on the length only: the digits test is
   * already met by the filter.
   */
  lemma TypedInputOnlyFailsOnLength(typed: string)
    ensures var f := DigitsOnly(typed);
            Trim(f) == f && (WellFormed(f) <==> 6 <= |f| <= 8)
  {
    TrimKeepsDigits(DigitsOnly(typed));
  }
}
