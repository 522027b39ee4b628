/**
 * `SettingsViewModel`: the API-key field of the settings dialog. The field
 * is edited freely; only `saveApiKey` and `clearApiKey` write the key
 * store, and a store that throws leaves everything but the error as it was.
 */
module SettingsViewModel {
  import opened Wrappers
  import opened Exceptions
  import opened ApiKeyRepository

  datatype SettingsUiState = SettingsUiState(
    apiKey: string := "",
    error: Option<string> := None,
    successMessage: Option<string> := None)

  const LoadFailedPrefix := "Ошибка загрузки API ключа: "
  const SaveFailedPrefix := "Ошибка сохранения API ключа: "
  const ClearFailedPrefix := "Ошибка очистки API ключа: "
  const SavedMessage := "API ключ успешно сохранен"
  const ClearedMessage := "API ключ очищен"

  /** `"<prefix>${e.message}"`: a missing message is rendered as "null". */
  function FailureText(prefix: string, e: Exception): (s: string)
    ensures |s| >= |prefix| && s[..|prefix|] == prefix
    ensures s[|prefix|..] == Rendered(Message(e))
  {
    prefix + Rendered(Message(e))
  }

  class SettingsViewModel {
    const apiKeyRepository: ApiKeyRepository
    /** `_uiState.value`. */
    var uiState: SettingsUiState

    /** Construction runs `loadApiKey()`: the stored key fills the field, or the error says why it could not. */
    constructor (apiKeyRepository: ApiKeyRepository, fault: Option<Exception>)
      ensures this.apiKeyRepository == apiKeyRepository
      ensures fault.None? ==> uiState == SettingsUiState(apiKey := apiKeyRepository.apiKey)
      ensures fault.Some? ==> uiState == SettingsUiState(error := Some(FailureText(LoadFailedPrefix, fault.value)))
    {
      this.apiKeyRepository := apiKeyRepository;
      var loaded := apiKeyRepository.GetApiKey(fault);
      if loaded.Success? {
        uiState := SettingsUiState(apiKey := loaded.value);
      } else {
        uiState := SettingsUiState(error := Some(FailureText(LoadFailedPrefix, loaded.error)));
      }
    }

    /** `onApiKeyChanged(apiKey)`: edits the field only; nothing is stored. */
    method OnApiKeyChanged(apiKey: string)
      modifies this
      ensures uiState == old(uiState).(apiKey := apiKey)
    {
      uiState := uiState.(apiKey := apiKey);
    }

    /**
     * `saveApiKey()`: reads the old key (only to log a change of mode),
     * stores the field, and reports success. `readFault` and `writeFault`
     * are what the two store calls threw; the first that throws ends it.
     */
    method SaveApiKey(readFault: Option<Exception>, writeFault: Option<Exception>)
      modifies this, apiKeyRepository
      ensures readFault.Some? ==>
                apiKeyRepository.apiKey == old(apiKeyRepository.apiKey) &&
                uiState == old(uiState).(error := Some(FailureText(SaveFailedPrefix, readFault.value)))
      ensures readFault.None? && writeFault.Some? ==>
                apiKeyRepository.apiKey == old(apiKeyRepository.apiKey) &&
                uiState == old(uiState).(error := Some(FailureText(SaveFailedPrefix, writeFault.value)))
      ensures readFault.None? && writeFault.None? ==>
                apiKeyRepository.apiKey == old(uiState).apiKey &&
                uiState == old(uiState).(error := None, successMessage := Some(SavedMessage))
    {
      var oldApiKey := apiKeyRepository.GetApiKey(readFault);
      if oldApiKey.Failure? {
        uiState := uiState.(error := Some(FailureText(SaveFailedPrefix, oldApiKey.error)));
        return;
      }
      var saved := apiKeyRepository.SaveApiKey(uiState.apiKey, writeFault);
      if saved.Failure? {
        uiState := uiState.(error := Some(FailureText(SaveFailedPrefix, saved.error)));
        return;
      }
      uiState := uiState.(error := None, successMessage := Some(SavedMessage));
    }

    /** `clearApiKey()`: stores "" and empties the field, which puts the app back on the free tier. */
    method ClearApiKey(readFault: Option<Exception>, writeFault: Option<Exception>)
      modifies this, apiKeyRepository
      ensures readFault.Some? ==>
                apiKeyRepository.apiKey == old(apiKeyRepository.apiKey) &&
                uiState == old(uiState).(error := Some(FailureText(ClearFailedPrefix, readFault.value)))
      ensures readFault.None? && writeFault.Some? ==>
                apiKeyRepository.apiKey == old(apiKeyRepository.apiKey) &&
                uiState == old(uiState).(error := Some(FailureText(ClearFailedPrefix, writeFault.value)))
      ensures readFault.None? && writeFault.None? ==>
                apiKeyRepository.apiKey == "" &&
                uiState == old(uiState).(apiKey := "", error := None, successMessage := Some(ClearedMessage))
    {
      var oldApiKey := apiKeyRepository.GetApiKey(readFault);
      if oldApiKey.Failure? {
        uiState := uiState.(error := Some(FailureText(ClearFailedPrefix, oldApiKey.error)));
        return;
      }
      var saved := apiKeyRepository.SaveApiKey("", writeFault);
      if saved.Failure? {
        uiState := uiState.(error := Some(FailureText(ClearFailedPrefix, saved.error)));
        return;
      }
      uiState := uiState.(apiKey := "", error := None, successMessage := Some(ClearedMessage));
    }

    /** `clearError()`. */
    method ClearError()
      modifies this
      ensures uiState == old(uiState).(error := None)
    {
      uiState := uiState.(error := None);
    }

    /** `clearSuccessMessage()`. */
    method ClearSuccessMessage()
      modifies this
      ensures uiState == old(uiState).(successMessage := None)
    {
      uiState := uiState.(successMessage := None);
    }
  }
}
