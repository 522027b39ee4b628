# binchecker, modelled in Dafny

binchecker is an Android app that looks up a card BIN (the first 6 to 8
digits of a card number). The app works in five steps:

- It checks the number typed on the input screen.
- It answers from a local history table when it can.
- Otherwise it asks the binlist.net service, with a premium API key sent as a `Bearer` header when one is set.
- It geocodes the issuing bank through OpenStreetMap to add the bank's city and coordinates.
- It stores the result in the history, which a second screen lists newest first and filters by a search query.

This project models the decision logic of that app. It does not model the UI rendering.

| file | models |
|---|---|
| `wrappers.dfy` | `Option` and `Result` |
| `exceptions.dfy` | the exception kinds the app tells apart, and their `message` |
| `text.dfy` | the Kotlin string operations used: digits, whitespace, `trim`, case-insensitive `contains`, `Int.toString` |
| `bin_info.dfy` | `BinInfo`, `Country`, `Bank`, and the constructor's non-blank check |
| `bin_api.dfy` | the two HTTP interfaces: requests as values, responses as optional fields |
| `bin_dao.dfy` | the Room table `bin_history` as a class over a map, with its sorted listing |
| `api_key_repository.dfy` | the API-key store, a single string cell |
| `bin_repository.dfy` | `getBinInfo` and the rest of `BinRepositoryImpl` |
| `check_bin_use_case.dfy` | the length-then-digits guard |
| `bin_input_view_model.dfy`, `history_view_model.dfy`, `settings_view_model.dfy` | the three view models, as classes whose `uiState` field the events reassign |
| `history_screen.dfy` | the history screen's content selection, its item keys and `formatTimestamp` |
| `bin_input_screen.dfy` | the input screen's decision rules and the Save button of the settings dialog |

The outside world comes in as explicit inputs. Each input is what one call returned or threw:

- the key read;
- the lookup;
- the geocoding search;
- the coordinate parse (`toDoubleOrNull`);
- the store write;
- the store re-read in a failure handler;
- the clock.

`BinRepositoryImpl.Resolve` is the lookup flow as a function of these inputs. It returns the result, the trace of observable steps (`Effect`) and the record written. The method `BinRepositoryImpl.GetBinInfo` performs the flow step by step against the store object, and its contract is proved equal to `Resolve`. The properties of the flow are lemmas about `Resolve`. Each view-model method states the whole new `uiState`.

## Model

| member | source | states |
|---|---|---|
| BinModel.NewBinInfo | app/src/main/java/com/binchecker/domain/model/BinInfo.kt:36-51 | construction fails exactly when `bin` is blank, with "BIN cannot be empty"; otherwise every given field is kept and an omitted timestamp is the creation time |
| BinModel.DefaultsAbsent | app/src/main/java/com/binchecker/domain/model/BinInfo.kt:40-46 | `BinInfo(bin)` has every optional field absent and is stamped with the creation time |
| BinModel.BlankBinRejected | app/src/main/java/com/binchecker/domain/model/BinInfo.kt:48-50 | a blank `bin` is rejected whatever timestamp is given |
| BinApi.LookupDefaults | app/src/main/java/com/binchecker/data/api/BinApiService.kt:43-46 | `BinApi.GetBinInfo`, which only builds the request value, sends `Accept-Version` "3" and no `Authorization` by default |
| BinApi.GeocodingDefaults | app/src/main/java/com/binchecker/data/api/BinApiService.kt:53-57 | `BinApi.SearchLocation`, which only builds the request value, asks for format "json", limit 1, addressdetails 1 by default |
| BinApi.ResponseDefaultsAbsent | app/src/main/java/com/binchecker/data/api/BinApiService.kt:76-84 | every field of a lookup response defaults to absent |
| BinDao.InsertByTimestamp | app/src/main/java/com/binchecker/data/local/BinDao.kt:9-10 | inserting a new row into a listing keeps it newest first and one entry per BIN, and adds exactly that row |
| BinDao.ListingSize | app/src/main/java/com/binchecker/data/local/BinDao.kt:9-10 | a listing of the table holds exactly one entry per row |
| BinDao.EmptyTableListsNothing | app/src/main/java/com/binchecker/data/local/BinDao.kt:18-19 | after a delete of every row, the listing is empty |
| BinDao.BinDao.InsertBin | app/src/main/java/com/binchecker/data/local/BinDao.kt:12-13 | an upsert keyed by `bin`: the new row replaces any old one and no other row changes |
| BinDao.BinDao.GetBinByNumber | app/src/main/java/com/binchecker/data/local/BinDao.kt:15-16 | returns the row whose key is `bin`, present exactly when the table holds one |
| BinDao.BinDao.GetAllBins | app/src/main/java/com/binchecker/data/local/BinDao.kt:9-10 | returns every row once, ordered by timestamp non-increasing, and nothing else |
| BinDao.BinDao.ClearHistory | app/src/main/java/com/binchecker/data/local/BinDao.kt:18-19 | the table becomes empty |
| ApiKeyRepository.ApiKeyRepository.GetApiKey | app/src/main/java/com/binchecker/data/repository/ApiKeyRepositoryImpl.kt:20-22 | returns the stored key, or the exception the store threw |
| ApiKeyRepository.ApiKeyRepository.SaveApiKey | app/src/main/java/com/binchecker/data/repository/ApiKeyRepositoryImpl.kt:24-26 | stores the key, or leaves the old one when the store throws |
| BinRepositoryImpl.AuthorizationHeader | app/src/main/java/com/binchecker/data/repository/BinRepositoryImpl.kt:63-64 | the header is present exactly when the key is non-empty, and is then "Bearer " followed by the key |
| BinRepositoryImpl.GeocodingQuery | app/src/main/java/com/binchecker/data/repository/BinRepositoryImpl.kt:93-97 | the query is the bank name followed by ", city" when the city is known, else by " bank" |
| BinRepositoryImpl.MergeMatch | app/src/main/java/com/binchecker/data/repository/BinRepositoryImpl.kt:108-114 | name, url and phone are kept; the API city wins over the match's city, which wins over its town; the coordinates are the match's, parsed, absent when unparsable |
| BinRepositoryImpl.Enrich | app/src/main/java/com/binchecker/data/repository/BinRepositoryImpl.kt:86-119 | one geocoding call exactly for a bank with a name; only the first match is used; no match or a failed call leaves the bank as the API returned it |
| BinRepositoryImpl.ErrorKind | app/src/main/java/com/binchecker/data/repository/BinRepositoryImpl.kt:136-178 | 429, 404, other HTTP codes, IOException and any other exception each map to their own error kind |
| BinRepositoryImpl.Recovered | app/src/main/java/com/binchecker/data/repository/BinRepositoryImpl.kt:136-178 | 404 fails at once; every other exception re-reads the store once and returns the record found, else that kind's error; a success is for the BIN whenever the re-read is |
| BinRepositoryImpl.ErrorMessage | app/src/main/java/com/binchecker/data/repository/BinRepositoryImpl.kt:136-178 | every failure carries a message: the handlers' own texts are non-empty, a rejected format carries the guard's text, and an exception returned as caught carries its own `message` |
| BinRepositoryImpl.Resolve | app/src/main/java/com/binchecker/data/repository/BinRepositoryImpl.kt:53-180 | the flow always starts with the store read; a cache hit is the answer; a record is written only when it is the answer, and it is for the requested BIN; when both store reads return the row keyed by the BIN, every success is a record for the requested BIN |
| BinRepositoryImpl.Answered | app/src/main/java/com/binchecker/data/repository/BinRepositoryImpl.kt:86-134 | after a lookup answer the trace extends the steps so far; the result fails exactly for a blank BIN when the store re-read finds nothing; a written record is the answer, is for the requested BIN, and its write is the last step; with a re-read keyed by the BIN, every success is for the requested BIN |
| BinRepositoryImpl.CacheHitShortCircuits | app/src/main/java/com/binchecker/data/repository/BinRepositoryImpl.kt:56-60 | a cache hit returns the stored record after one store read: no key read, no call, no write |
| BinRepositoryImpl.OneLookupPerMiss | app/src/main/java/com/binchecker/data/repository/BinRepositoryImpl.kt:53-68 | a miss makes exactly one lookup call, after the store read and the key read, for the requested BIN with version "3" and "Bearer <key>" exactly when a key is set; a hit or a failed key read makes none |
| BinRepositoryImpl.GeocodingOnlyForNamedBank | app/src/main/java/com/binchecker/data/repository/BinRepositoryImpl.kt:86-101 | after a lookup answer, exactly one geocoding call is made when the bank has a name and none otherwise, and it comes right after the lookup with the query built from name and city |
| BinRepositoryImpl.FreshRecordFromResponse | app/src/main/java/com/binchecker/data/repository/BinRepositoryImpl.kt:122-134 | a lookup answer gives a record with the requested BIN, the answer's fields, the enriched bank and the current time; it is written last, and after a successful write the store returns it for that BIN |
| BinRepositoryImpl.SaveFailureInvisible | app/src/main/java/com/binchecker/data/repository/BinRepositoryImpl.kt:186-193 | whether the write throws does not change the result |
| BinRepositoryImpl.EnrichmentNeverFails | app/src/main/java/com/binchecker/data/repository/BinRepositoryImpl.kt:103-118 | the geocoding outcome never turns success into failure or back; an empty or failed search stores the bank exactly as the API returned it |
| BinRepositoryImpl.NotFoundSkipsStore | app/src/main/java/com/binchecker/data/repository/BinRepositoryImpl.kt:148-150 | HTTP 404 fails with "BIN номер не найден" after the single first store read, whatever the store holds by then |
| BinRepositoryImpl.FailureFallsBackToStore | app/src/main/java/com/binchecker/data/repository/BinRepositoryImpl.kt:136-179 | every other failure re-reads the store last; a stored record is the answer; otherwise the message is the rate-limit text, "Ошибка сети: <code>", the no-connection text, or the exception's own message; nothing is written |
| BinRepositoryImpl.BinRepositoryImpl.GetBinInfo | app/src/main/java/com/binchecker/data/repository/BinRepositoryImpl.kt:53-180 | performs the flow step by step: result, trace and new store equal those of `Resolve` on the store as it was; every success is a record for the requested BIN |
| BinRepositoryImpl.BinRepositoryImpl.FetchRemote | app/src/main/java/com/binchecker/data/repository/BinRepositoryImpl.kt:63-180 | after a miss in the store: result, trace and new store equal those of `Resolve` with nothing cached; every success is a record for the requested BIN |
| BinRepositoryImpl.BinRepositoryImpl.EnrichBank | app/src/main/java/com/binchecker/data/repository/BinRepositoryImpl.kt:86-119 | performs the enrichment step: the bank and the search calls equal those of `Enrich` |
| BinRepositoryImpl.BinRepositoryImpl.StoreResponse | app/src/main/java/com/binchecker/data/repository/BinRepositoryImpl.kt:86-134 | after a lookup answer: result, trace and new store equal those of `Answered`, the answered branch of `Resolve` |
| BinRepositoryImpl.BinRepositoryImpl.SaveBin | app/src/main/java/com/binchecker/data/repository/BinRepositoryImpl.kt:186-193 | upserts the record, or leaves the store as it was when the write throws, without failing |
| BinRepositoryImpl.BinRepositoryImpl.GetBinByNumber | app/src/main/java/com/binchecker/data/repository/BinRepositoryImpl.kt:195-197 | the store's row for the BIN, never the network |
| BinRepositoryImpl.BinRepositoryImpl.GetAllBins | app/src/main/java/com/binchecker/data/repository/BinRepositoryImpl.kt:182-184 | the store's listing, newest first |
| BinRepositoryImpl.BinRepositoryImpl.ClearHistory | app/src/main/java/com/binchecker/data/repository/BinRepositoryImpl.kt:199-201 | empties the store, or passes on what it threw and leaves it as it was |
| CheckBinUseCase.FormatError | app/src/main/java/com/binchecker/domain/usecase/CheckBinUseCase.kt:11-16 | no message exactly for 6 to 8 digits; otherwise one of the two guard messages |
| CheckBinUseCase.Check | app/src/main/java/com/binchecker/domain/usecase/CheckBinUseCase.kt:10-18 | nothing is read, sent or written exactly when the BIN is rejected, and a rejected BIN fails with the guard's message; a written record is for a well-formed requested BIN; with store reads keyed by the BIN, every success is for it |
| CheckBinUseCase.LengthCheckedFirst | app/src/main/java/com/binchecker/domain/usecase/CheckBinUseCase.kt:11-13 | a length outside 6..8 gets the length message whatever the characters |
| CheckBinUseCase.DigitsCheckedSecond | app/src/main/java/com/binchecker/domain/usecase/CheckBinUseCase.kt:14-16 | a right-length string with a non-digit gets the digits message |
| CheckBinUseCase.InvalidNeverReachesRepository | app/src/main/java/com/binchecker/domain/usecase/CheckBinUseCase.kt:11-16 | a rejected BIN fails with the guard's message and the repository is not touched: no read, call or write |
| CheckBinUseCase.WellFormedIsNotBlank | app/src/main/java/com/binchecker/domain/usecase/CheckBinUseCase.kt:14-17 | a BIN of digits is never blank |
| CheckBinUseCase.GuardedLookupSucceeds | app/src/main/java/com/binchecker/domain/usecase/CheckBinUseCase.kt:17 | behind the guard, a lookup answer always yields a record for the requested BIN: the blank-BIN check cannot fail there |
| CheckBinUseCase.CheckBinUseCase.Invoke | app/src/main/java/com/binchecker/domain/usecase/CheckBinUseCase.kt:10-18 | rejects a malformed BIN without touching the store; delegates a well-formed one to the repository's flow; every success is a record for the requested BIN |
| BinInputViewModel.DigitsOnly | app/src/main/java/com/binchecker/presentation/viewmodel/BinInputViewModel.kt:24 | the filtered input has only digits and is no longer than the input |
| BinInputViewModel.DigitsOnlyKeepsDigits | app/src/main/java/com/binchecker/presentation/viewmodel/BinInputViewModel.kt:24 | a character is in the filtered input exactly when it is a digit of the input |
| BinInputViewModel.DigitsOnlySingleton | app/src/main/java/com/binchecker/presentation/viewmodel/BinInputViewModel.kt:24 | a single character is kept exactly when it is a digit; with `DigitsOnlyAppend` this fixes the filter on every input |
| BinInputViewModel.DigitsOnlyAppend | app/src/main/java/com/binchecker/presentation/viewmodel/BinInputViewModel.kt:24 | filtering distributes over concatenation, so the digits keep their order |
| BinInputViewModel.DigitsOnlyIdentity | app/src/main/java/com/binchecker/presentation/viewmodel/BinInputViewModel.kt:24 | the filter leaves a string unchanged exactly when it has only digits |
| BinInputViewModel.DigitsOnlyIdempotent | app/src/main/java/com/binchecker/presentation/viewmodel/BinInputViewModel.kt:24 | filtering twice is filtering once |
| BinInputViewModel.ValidationError | app/src/main/java/com/binchecker/presentation/viewmodel/BinInputViewModel.kt:32-37 | no message exactly for an empty or well-formed input; 1 to 5 characters get the min-6 message and more than 8 the max-8 message, before any digit test; any message is one of the three texts |
| BinInputViewModel.ValidationOfTypedInput | app/src/main/java/com/binchecker/presentation/viewmodel/BinInputViewModel.kt:32-37 | for typed input: the min-6 message exactly for 1 to 5 digits, the max-8 message exactly above 8, none otherwise; the digits-only message is unreachable |
| BinInputViewModel.ButtonEnabledIffNoMessage | app/src/main/java/com/binchecker/presentation/viewmodel/BinInputViewModel.kt:27-37 | for non-empty typed input, the button is enabled exactly when no validation message is shown |
| BinInputViewModel.AfterLookup | app/src/main/java/com/binchecker/presentation/viewmodel/BinInputViewModel.kt:61-74 | after the answer loading is off; the record is shown exactly on success; a failure shows its message or "Произошла ошибка"; the input fields are untouched |
| BinInputViewModel.TrimKeepsDigits | app/src/main/java/com/binchecker/presentation/viewmodel/BinInputViewModel.kt:42 | trimming leaves a digits-only input unchanged |
| BinInputViewModel.TypedInputOnlyFailsOnLength | app/src/main/java/com/binchecker/presentation/viewmodel/BinInputViewModel.kt:42-51 | for typed input, `checkBin` sends it as typed and its format check fails on the length only |
| BinInputViewModel.BinInputViewModel.OnBinInputChanged | app/src/main/java/com/binchecker/presentation/viewmodel/BinInputViewModel.kt:22-39 | the input becomes its digits, the button is enabled exactly for 6 to 8 of them, the validation message follows; nothing else changes |
| BinInputViewModel.BinInputViewModel.CheckBin | app/src/main/java/com/binchecker/presentation/viewmodel/BinInputViewModel.kt:41-76 | an empty trimmed input changes nothing; a malformed one sets only the format error; otherwise the loading state (error and record cleared), then the outcome of the use case |
| BinInputViewModel.BinInputViewModel.Submit | app/src/main/java/com/binchecker/presentation/viewmodel/BinInputViewModel.kt:53-74 | shows the loading state with error and record cleared, then the state `AfterLookup` gives for the use case's outcome; the store changes as the flow writes |
| BinInputViewModel.BinInputViewModel.ClearError | app/src/main/java/com/binchecker/presentation/viewmodel/BinInputViewModel.kt:78-80 | only `error` is cleared |
| HistoryViewModel.KeepMatching | app/src/main/java/com/binchecker/presentation/viewmodel/HistoryViewModel.kt:60-65 | a record is kept exactly when its BIN, bank name, country name or scheme contains the query ignoring case; absent fields never match |
| HistoryViewModel.FilterBins | app/src/main/java/com/binchecker/presentation/viewmodel/HistoryViewModel.kt:58-66 | an empty query returns the list unchanged; otherwise exactly the matching records |
| HistoryViewModel.FilterPreservesOrder | app/src/main/java/com/binchecker/presentation/viewmodel/HistoryViewModel.kt:58-66 | the result is an order-preserving sublist of the input |
| HistoryViewModel.EmptyQueryMatchesAll | app/src/main/java/com/binchecker/presentation/viewmodel/HistoryViewModel.kt:59-60 | the early return for an empty query agrees with the filter, since every string contains "" |
| HistoryViewModel.FilterKeepsBinsDistinct | app/src/main/java/com/binchecker/presentation/viewmodel/HistoryViewModel.kt:58-66 | records with distinct BINs stay distinct after filtering |
| HistoryViewModel.SnapshotAfterClearIsEmpty | app/src/main/java/com/binchecker/presentation/viewmodel/HistoryViewModel.kt:68-77 | after a successful clear the next snapshot and the list shown are empty |
| HistoryViewModel.HistoryViewModel.constructor | app/src/main/java/com/binchecker/presentation/viewmodel/HistoryViewModel.kt:25-31 | starts empty, in the loading state |
| HistoryViewModel.HistoryViewModel.LoadHistory | app/src/main/java/com/binchecker/presentation/viewmodel/HistoryViewModel.kt:29-31 | shows the loading state, nothing else |
| HistoryViewModel.HistoryViewModel.OnHistoryEmitted | app/src/main/java/com/binchecker/presentation/viewmodel/HistoryViewModel.kt:40-46 | the snapshot is the store's listing; it replaces `allBins`, is shown filtered by the current query, and loading and error are cleared |
| HistoryViewModel.HistoryViewModel.OnHistoryFailed | app/src/main/java/com/binchecker/presentation/viewmodel/HistoryViewModel.kt:34-38 | loading stops and the error is the exception's message or "Ошибка загрузки истории" |
| HistoryViewModel.HistoryViewModel.OnSearchQueryChanged | app/src/main/java/com/binchecker/presentation/viewmodel/HistoryViewModel.kt:51-56 | the query is set and the list is the snapshot filtered by it |
| HistoryViewModel.HistoryViewModel.ClearHistory | app/src/main/java/com/binchecker/presentation/viewmodel/HistoryViewModel.kt:68-83 | on success the store, the snapshot, the list and the query are emptied and the error cleared; on failure only the error is set |
| HistoryViewModel.HistoryViewModel.ClearError | app/src/main/java/com/binchecker/presentation/viewmodel/HistoryViewModel.kt:86-88 | only `error` is cleared |
| HistoryViewModel.HistoryViewModel.OnBinClick | app/src/main/java/com/binchecker/presentation/viewmodel/HistoryViewModel.kt:94-96 | only `selectedBin` is set |
| HistoryViewModel.HistoryViewModel.OnDetailDismiss | app/src/main/java/com/binchecker/presentation/viewmodel/HistoryViewModel.kt:98-100 | only `selectedBin` is cleared |
| SettingsViewModel.FailureText | app/src/main/java/com/binchecker/presentation/viewmodel/SettingsViewModel.kt:30-34 | the error text is the prefix followed by the exception's message, "null" when it has none |
| SettingsViewModel.SettingsViewModel.constructor | app/src/main/java/com/binchecker/presentation/viewmodel/SettingsViewModel.kt:21-35 | the stored key fills the field, or a load failure sets only the error |
| SettingsViewModel.SettingsViewModel.OnApiKeyChanged | app/src/main/java/com/binchecker/presentation/viewmodel/SettingsViewModel.kt:38-40 | only the field changes; nothing is stored |
| SettingsViewModel.SettingsViewModel.SaveApiKey | app/src/main/java/com/binchecker/presentation/viewmodel/SettingsViewModel.kt:42-69 | stores the field, clears the error and sets "API ключ успешно сохранен", the field unchanged; if either store call throws, only the error changes and the store keeps its key |
| SettingsViewModel.SettingsViewModel.ClearApiKey | app/src/main/java/com/binchecker/presentation/viewmodel/SettingsViewModel.kt:72-96 | stores "", empties the field, clears the error and sets "API ключ очищен"; if a store call throws, only the error changes |
| SettingsViewModel.SettingsViewModel.ClearError | app/src/main/java/com/binchecker/presentation/viewmodel/SettingsViewModel.kt:99-101 | only `error` is cleared |
| SettingsViewModel.SettingsViewModel.ClearSuccessMessage | app/src/main/java/com/binchecker/presentation/viewmodel/SettingsViewModel.kt:103-105 | only `successMessage` is cleared |
| HistoryScreen.SelectContent | app/src/main/java/com/binchecker/presentation/ui/screens/HistoryScreen.kt:93-109 | loading wins; then an empty list with an empty query is the empty state, with a non-empty query the no-results state; otherwise the list |
| HistoryScreen.EmptyStatesMeanWhatTheySay | app/src/main/java/com/binchecker/presentation/ui/screens/HistoryScreen.kt:93-102 | the empty state means the snapshot is empty; no-results means no record of the snapshot matches the query |
| HistoryScreen.ItemKeys | app/src/main/java/com/binchecker/presentation/ui/screens/HistoryScreen.kt:282-285 | the item key of each list entry is its BIN |
| HistoryScreen.ItemKeysUnique | app/src/main/java/com/binchecker/presentation/ui/screens/HistoryScreen.kt:282-285 | the keys are unique for every query when the snapshot has one record per BIN |
| HistoryScreen.Bucket | app/src/main/java/com/binchecker/presentation/ui/screens/HistoryScreen.kt:506-510 | exactly one bucket applies; hours are 1..23 and days 1..6, each the whole units elapsed; 7 days or more is the date bucket |
| HistoryScreen.FormatTimestamp | app/src/main/java/com/binchecker/presentation/ui/screens/HistoryScreen.kt:502-515 | under an hour (or in the future) "только что"; under a day the whole hours and " ч назад"; under a week the whole days and " дн назад"; otherwise the formatted date |
| HistoryScreen.BucketMonotonic | app/src/main/java/com/binchecker/presentation/ui/screens/HistoryScreen.kt:506-510 | an older record never lands in a younger bucket or gets a smaller count |
| HistoryScreen.RecentIsJustNow | app/src/main/java/com/binchecker/presentation/ui/screens/HistoryScreen.kt:507 | less than an hour, including a negative difference, is "только что" |
| HistoryScreen.HoursLabelRoundTrip | app/src/main/java/com/binchecker/presentation/ui/screens/HistoryScreen.kt:508 | the hour text is a number followed by " ч назад", and the number reads back as the whole hours elapsed |
| HistoryScreen.DaysLabelRoundTrip | app/src/main/java/com/binchecker/presentation/ui/screens/HistoryScreen.kt:509 | the day text is a number followed by " дн назад", and the number reads back as the whole days elapsed |
| BinInputScreen.IsPremiumMode | app/src/main/java/com/binchecker/presentation/ui/screens/BinInputScreen.kt:73 | premium mode is shown exactly when a lookup with the field's key would carry an `Authorization` header |
| BinInputScreen.CheckButtonEnabled | app/src/main/java/com/binchecker/presentation/ui/screens/BinInputScreen.kt:289 | the button is never enabled while a lookup runs, nor for an input the view model has not accepted |
| BinInputScreen.CheckButtonGate | app/src/main/java/com/binchecker/presentation/ui/screens/BinInputScreen.kt:289 | the check button is disabled while loading, and after typing it is enabled exactly for 6 to 8 digits when not loading |
| BinInputScreen.PrepaidLabel | app/src/main/java/com/binchecker/presentation/ui/screens/BinInputScreen.kt:366 | true reads "Да", false "Нет", absent "Не указано" |
| BinInputScreen.PrepaidLabelInjective | app/src/main/java/com/binchecker/presentation/ui/screens/BinInputScreen.kt:366 | the three prepaid states read differently |
| BinInputScreen.Capitalized | app/src/main/java/com/binchecker/presentation/ui/screens/BinInputScreen.kt:363 | only the first character is uppercased |
| BinInputScreen.CapitalizedIdempotent | app/src/main/java/com/binchecker/presentation/ui/screens/BinInputScreen.kt:363-365 | capitalizing a capitalized value changes nothing |
| BinInputScreen.CapitalizedOrMissing | app/src/main/java/com/binchecker/presentation/ui/screens/BinInputScreen.kt:363-365 | the display rule itself: scheme and type are shown capitalized, or "Не указан" when absent |
| BinInputScreen.ShowPremiumWarning | app/src/main/java/com/binchecker/presentation/ui/screens/BinInputScreen.kt:394 | no warning in premium mode, nor for a bank with a url or a phone |
| BinInputScreen.PremiumWarningIff | app/src/main/java/com/binchecker/presentation/ui/screens/BinInputScreen.kt:394 | the premium warnings show exactly when the bank has neither url nor phone (or there is no bank) and the app is not in premium mode |
| BinInputScreen.MapButtonFor | app/src/main/java/com/binchecker/presentation/ui/screens/BinInputScreen.kt:448-466 | the bank map exactly for a bank with both coordinates; the country map exactly when there is no bank and the country has both |
| BinInputScreen.BankWithoutCoordinatesHidesCountryMap | app/src/main/java/com/binchecker/presentation/ui/screens/BinInputScreen.kt:448-466 | a bank without both coordinates gives no map button at all |
| BinInputScreen.GeocodedBankIsMappable | app/src/main/java/com/binchecker/presentation/ui/screens/BinInputScreen.kt:448-455 | a named bank whose match has parsable coordinates gets the bank map at the parsed point |
| BinInputScreen.OnSaveClickAsWritten | app/src/main/java/com/binchecker/presentation/ui/screens/BinInputScreen.kt:734-738 | as written, Save dismisses the dialog and may change nothing |
| BinInputScreen.SaveAsWrittenLosesKey | app/src/main/java/com/binchecker/presentation/ui/screens/BinInputScreen.kt:734-738 | a typed key is not stored: premium mode is shown while the next lookup carries no header |
| BinInputScreen.OnSaveClick | app/src/main/java/com/binchecker/presentation/ui/screens/BinInputScreen.kt:734-738 | the intended Save stores the typed key, then dismisses |
| BinInputScreen.SavedKeyReachesLookup | app/src/main/java/com/binchecker/presentation/ui/screens/BinInputScreen.kt:734-738 | with the intended Save, premium mode on screen and the lookup's "Bearer <key>" header agree for every key |
| Text.Trim | app/src/main/java/com/binchecker/presentation/viewmodel/BinInputViewModel.kt:42 | the result neither starts nor ends with whitespace; it is empty exactly for a blank input; an input without surrounding whitespace is unchanged |
| Text.TrimIsInfix | app/src/main/java/com/binchecker/presentation/viewmodel/BinInputViewModel.kt:42 | the result is the slice of the input that starts right after the leading whitespace |
| Text.TrimDropsBlanks | app/src/main/java/com/binchecker/presentation/viewmodel/BinInputViewModel.kt:42 | what is dropped before and after that slice is whitespace only |
| Text.ContainsIgnoringCase | app/src/main/java/com/binchecker/presentation/viewmodel/HistoryViewModel.kt:61-64 | a query longer than the text is never found, and the empty query is found in every text |
| Text.ContainsIgnoringCaseIff | app/src/main/java/com/binchecker/presentation/viewmodel/HistoryViewModel.kt:61-64 | the search succeeds exactly when the query occurs at some position, ignoring case |
| Exceptions.Message | app/src/main/java/com/binchecker/presentation/viewmodel/BinInputViewModel.kt:71 | an HTTP exception's message starts with "HTTP "; any other exception's message is the one it was created with, possibly none |
| Text.LowerChar | app/src/main/java/com/binchecker/presentation/viewmodel/HistoryViewModel.kt:61-64 | a folded capital becomes a folded small letter; every other character is kept |
| Text.UpperChar | app/src/main/java/com/binchecker/presentation/ui/screens/BinInputScreen.kt:363-365 | a folded small letter becomes a folded capital; every other character is kept |
| Text.CaseFoldRoundTrip | app/src/main/java/com/binchecker/presentation/viewmodel/HistoryViewModel.kt:61-64 | lower- and upper-casing undo each other on the letters they fold |
| Text.ParseNatToString | app/src/main/java/com/binchecker/presentation/ui/screens/HistoryScreen.kt:508-509 | rendering a count in decimal and reading it back gives the count |

## Left out

- Compose rendering is not modelled: layout, colours, animation, `Intent` launching and navigation. Only the decision rules in the table are.
- Dependency injection and client setup are not modelled: Retrofit and OkHttp construction, the interceptor headers, timeouts, and the database singleton.
- `Converters` (the Gson JSON columns for `Country` and `Bank`) is left out. The model assumes that a stored record reads back as it was written.
- `SharedPreferences` is modelled only as one string cell, "" until a key is saved.
- Concurrency and reactivity become sequential steps:
  - A launched coroutine runs to its end before the next event.
  - A Room `Flow` emission is the event `OnHistoryEmitted`, which reads the current listing.
  - A concurrent write between two reads of one lookup is the separate re-read input.
- `println` logging is left out. So is the key read in `saveApiKey` and `clearApiKey`; that read is kept only as a call that may throw.
- `Char.isDigit`, `Char.isWhitespace` and the case folding of `contains(ignoreCase = true)` and `uppercase()` are Unicode-wide in Kotlin. Here they cover the ASCII digits, the ASCII whitespace, and the basic Latin letters A–Z and the Cyrillic letters U+0400–U+045F only.
- `Double` coordinates are opaque `real` values. `toDoubleOrNull` is a function given as input.
- BinRepositoryImpl.Resolve: the first `dao.getBinByNumber` is assumed not to throw. In the source, a throw there would be caught by the general handler, which reads the store again.
- The re-read of a failure handler is an input (`Environment.reread`), since another lookup may have written the row since the first read. The methods require it to be keyed by the requested BIN (`RereadFor`), as the query `WHERE bin = :bin` guarantees. The functions state their same-BIN promise under that condition.
- BinRepositoryImpl.Recovered: a handler's own re-read is assumed not to throw. In the source such a throw escapes `getBinInfo`.
- HistoryScreen.FormatTimestamp: the "dd.MM.yy" date of the last branch is an input function, because it depends on the locale and the time zone.
- HistoryScreen.Bucket: `now - timestamp` is computed without 64-bit wrap-around, which could only matter for a difference beyond 2^63 milliseconds.
- The `BinRepository` and `ApiKeyRepository` interfaces and the `GetHistoryUseCase` class only forward calls, so these forwarding types are folded into the classes they forward to.
- CheckBinUseCase.FormatError: a string is a sequence of Unicode scalar values, so `|bin|` counts characters. Kotlin's `length` counts UTF-16 code units, so the two differ for characters outside the Basic Multilingual Plane: "1234" followed by an emoji has length 6 in Kotlin and gets the digits message, but has 5 characters here and gets the length message. The input screen's digit filter keeps such strings away from the use case.

## Findings

| source | as written | input that shows it | evidently intended | confidence | as-written member | corrected member |
|---|---|---|---|---|---|---|
| app/src/main/java/com/binchecker/presentation/ui/screens/BinInputScreen.kt:736 | the Save handler evaluates `settingsViewModel::saveApiKey` as a bare reference and never calls it | type the key "key" in the settings dialog and press Save: the store keeps "", the screen shows premium mode, and the next lookup is sent without an `Authorization` header | Save calls `saveApiKey()` and then dismisses, so the typed key is stored and used | high (not executed) | BinInputScreen.SaveAsWrittenLosesKey | BinInputScreen.SavedKeyReachesLookup |
