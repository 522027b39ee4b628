/**
 * The decision rules of the BIN input screen: premium mode, the check
 * button, the labels of the result card, the premium warnings and the
 * choice of map button; and the Save button of the settings dialog.
 */
module BinInputScreen {
  import opened Wrappers
  import opened Text
  import opened Exceptions
  import opened BinModel
  import opened BinApi
  import opened BinRepositoryImpl
  import opened CheckBinUseCase
  import opened BinInputViewModel
  import opened SettingsViewModel
  import opened ApiKeyRepository

  /** Premium mode: the key field of the settings state is non-empty. */
  predicate IsPremiumMode(settings: SettingsUiState)
    ensures IsPremiumMode(settings) <==> AuthorizationHeader(settings.apiKey).Some?
  {
    settings.apiKey != ""
  }

  /** The check button is enabled for an accepted input while no lookup is running. */
  predicate CheckButtonEnabled(s: BinInputUiState)
    ensures CheckButtonEnabled(s) ==> !s.isLoading
    ensures !s.isButtonEnabled ==> !CheckButtonEnabled(s)
  {
    s.isButtonEnabled && !s.isLoading
  }

  /** While a lookup runs the button is disabled; once typing gives 6 to 8 digits it is enabled again unless one runs. */
  lemma CheckButtonGate(s: BinInputUiState, typed: string)
    ensures s.isLoading ==> !CheckButtonEnabled(s)
    ensures var f := DigitsOnly(typed);
            var t := s.(binInput := f, isButtonEnabled := WellFormed(f), validationError := ValidationError(f));
            CheckButtonEnabled(t) <==> 6 <= |f| <= 8 && !s.isLoading
  {
  }

  /** The "Предоплаченная" row: yes, no, or not given. */
  function PrepaidLabel(prepaid: Option<bool>): (s: string)
    ensures prepaid == Some(true) ==> s == "Да"
    ensures prepaid == Some(false) ==> s == "Нет"
    ensures prepaid.None? ==> s == "Не указано"
  {
    match prepaid
    case Some(true) => "Да"
    case Some(false) => "Нет"
    case None => "Не указано"
  }

  /** The three prepaid states read differently. */
  lemma PrepaidLabelInjective(a: Option<bool>, b: Option<bool>)
    ensures PrepaidLabel(a) == PrepaidLabel(b) ==> a == b
  {
    // The three labels have different lengths.
    assert |PrepaidLabel(a)| == match a case Some(true) => 2 case Some(false) => 3 case None => 10;
    assert |PrepaidLabel(b)| == match b case Some(true) => 2 case Some(false) => 3 case None => 10;
  }

  /** `replaceFirstChar { it.uppercase() }`. */
  function Capitalized(s: string): (r: string)
    ensures |r| == |s|
    ensures s != [] ==> r[0] == UpperChar(s[0]) && r[1..] == s[1..]
  {
    if s == [] then [] else [UpperChar(s[0])] + s[1..]
  }

  /** Capitalizing an already capitalized value changes nothing: an upper-cased letter is not folded again. */
  lemma CapitalizedIdempotent(s: string)
    ensures Capitalized(Capitalized(s)) == Capitalized(s)
  {
    if s != [] {
      var c := Capitalized(s);
      assert c[0] == UpperChar(s[0]) && !IsLowerLetter(c[0]);
      assert Capitalized(c) == [c[0]] + c[1..];
      assert c == [c[0]] + c[1..];
    }
  }

  /** The "Тип карты" and "Тип" rows: the value capitalized, or "Не указан". */
  function CapitalizedOrMissing(value: Option<string>): (s: string)
    ensures value.Some? ==> s == Capitalized(value.value)
    ensures value.None? ==> s == "Не указан"
  {
    if value.Some? then Capitalized(value.value) else "Не указан"
  }

  /** Both premium warnings: no bank url, no bank phone (an absent bank has neither), and no key. */
  predicate ShowPremiumWarning(info: BinInfo, premium: bool)
    ensures premium ==> !ShowPremiumWarning(info, premium)
    ensures info.bank.Some? && info.bank.value.url.Some? ==> !ShowPremiumWarning(info, premium)
    ensures info.bank.Some? && info.bank.value.phone.Some? ==> !ShowPremiumWarning(info, premium)
  {
    (info.bank.None? || info.bank.value.url.None?) &&
    (info.bank.None? || info.bank.value.phone.None?) &&
    !premium
  }

  /** The warning is shown exactly when the card has no way to contact the bank and the app is on the free tier. */
  lemma PremiumWarningIff(info: BinInfo, premium: bool)
    ensures ShowPremiumWarning(info, premium) <==>
            !premium && !(info.bank.Some? && (info.bank.value.url.Some? || info.bank.value.phone.Some?))
  {
  }

  /** The map button of the result card, with the point it opens. */
  datatype MapButton = NoMap | BankMap(latitude: Coordinate, longitude: Coordinate) | CountryMap(latitude: Coordinate, longitude: Coordinate)

  /**
   * `bank?.let { ... } ?: run { ... }`: the `run` branch is taken only
   * when there is no bank at all, so a bank without coordinates hides
   * the country button too.
   */
  function MapButtonFor(info: BinInfo): (m: MapButton)
    ensures m.BankMap? <==> info.bank.Some? && info.bank.value.latitude.Some? && info.bank.value.longitude.Some?
    ensures m.BankMap? ==> m == BankMap(info.bank.value.latitude.value, info.bank.value.longitude.value)
    ensures m.CountryMap? <==>
              info.bank.None? && info.country.Some? && info.country.value.latitude.Some? && info.country.value.longitude.Some?
    ensures m.CountryMap? ==> m == CountryMap(info.country.value.latitude.value, info.country.value.longitude.value)
  {
    if info.bank.Some? then
      var bank := info.bank.value;
      if bank.latitude.Some? && bank.longitude.Some? then BankMap(bank.latitude.value, bank.longitude.value) else NoMap
    else if info.country.Some? && info.country.value.latitude.Some? && info.country.value.longitude.Some? then
      CountryMap(info.country.value.latitude.value, info.country.value.longitude.value)
    else NoMap
  }

  /** A bank without both coordinates gives no map button, whatever the country holds. */
  lemma BankWithoutCoordinatesHidesCountryMap(info: BinInfo)
    requires info.bank.Some? && (info.bank.value.latitude.None? || info.bank.value.longitude.None?)
    ensures MapButtonFor(info) == NoMap
  {
  }

  /**
   * A named bank whose geocoding match has parsable coordinates gets the
   * bank map button, at the parsed point.
   */
  lemma GeocodedBankIsMappable(info: BinInfo, bank: Bank, hit: GeocodingResult,
                               parseDouble: string -> Option<Coordinate>)
    requires bank.name.Some?
    requires ParsedCoordinate(hit.lat, parseDouble).Some? && ParsedCoordinate(hit.lon, parseDouble).Some?
    requires info.bank == Enrich(Some(bank), Matches([hit]), parseDouble).0
    ensures MapButtonFor(info) ==
            BankMap(ParsedCoordinate(hit.lat, parseDouble).value, ParsedCoordinate(hit.lon, parseDouble).value)
  {
  }

  /**
   * The Save button as written: its handler evaluates the reference
   * `settingsViewModel::saveApiKey` without calling it, then dismisses
   * the dialog. Nothing is stored.
   */
  method OnSaveClickAsWritten(settings: SettingsViewModel) returns (dismissed: bool)
    ensures dismissed
  {
    dismissed := true;
  }

  /**
   * Typing a key and pressing Save as written: the screen shows premium
   * mode, yet the store still holds "" and the next lookup is sent with
   * no `Authorization` header.
   */
  method SaveAsWrittenLosesKey() returns (typed: string, stored: string, premiumShown: bool, header: Option<string>)
    ensures typed == "key" && stored == ""
    ensures premiumShown && header.None?
  {
    var repository := new ApiKeyRepository();
    var settings := new SettingsViewModel(repository, None);
    settings.OnApiKeyChanged("key");
    var _ := OnSaveClickAsWritten(settings);
    typed, stored := settings.uiState.apiKey, repository.apiKey;
    premiumShown := IsPremiumMode(settings.uiState);
    header := AuthorizationHeader(repository.apiKey);
  }

  /** The Save button as evidently intended: call `saveApiKey()`, then dismiss. */
  method OnSaveClick(settings: SettingsViewModel, readFault: Option<Exception>, writeFault: Option<Exception>)
    returns (dismissed: bool)
    modifies settings, settings.apiKeyRepository
    ensures dismissed
    ensures readFault.None? && writeFault.None? ==> settings.apiKeyRepository.apiKey == old(settings.uiState.apiKey)
    ensures settings.uiState.apiKey == old(settings.uiState.apiKey)
  {
    settings.SaveApiKey(readFault, writeFault);
    dismissed := true;
  }

  /**
   * With the intended handler, premium mode on screen and the header of
   * the next lookup agree for every key typed: "Bearer <key>" exactly
   * when the screen shows premium mode.
   */
  method SavedKeyReachesLookup(key: string) returns (premiumShown: bool, header: Option<string>)
    ensures premiumShown <==> header.Some?
    ensures premiumShown ==> header == Some("Bearer " + key)
  {
    var repository := new ApiKeyRepository();
    var settings := new SettingsViewModel(repository, None);
    settings.OnApiKeyChanged(key);
    var _ := OnSaveClick(settings, None, None);
    premiumShown := IsPremiumMode(settings.uiState);
    header := AuthorizationHeader(repository.apiKey);
  }
}
