# Map-creation interface endpoints, modelled in Dafny

This project models the server endpoints of a SvelteKit application that turns a map
configuration into a site of its own. The endpoints:

- translate the interface texts into 24 European languages with a translation service (`translate`);
- keep the translations in blob storage (`save-translations`, `saveTranslationsToBlob`);
- empty that storage again (`cleanup-storage`);
- create the user's GitHub repository, from scratch (`create-repo`) or from a template,
  and write the map configuration into it (`init-repository`, `commit-component`);
- commit one JSON file per language into the repository, then trigger a deployment
  (`commit-files`, `commit-component`);
- create a project for the repository on the hosting platform and start a deployment
  (`deploy-vercel`).

Every remote service is an oracle:

- A call made once is an `Outcome<T>` parameter: `Ok(value)`, or `Err(error)` with the
  error's `status`, `headers`, `message` and `details`.
- A call that can be repeated is a `Script<T>`, whose `i`-th invocation has the `i`-th
  outcome. This covers retry loops, per-attempt reads and writes, and one put per language.

Each endpoint returns its JSON response, the ordered trace of the remote calls it issued
(`seq<Call>`), and, where it sleeps, the log of its pauses in milliseconds. Nothing waits.

Each loop of the source is a `method` with its invariants. It is proved equal to a
recursive specification function, and the endpoint's promises are proved as lemmas about
that function.

Shared modules:

- `Remote`: errors, outcomes, flows and the call vocabulary.
- `Layout`: repository paths and blob keys.
- `JsText`: JavaScript's `trim`, `parseInt` and decimal rendering.
- `Retry`: `retryOperation`; `waitForRepo` reuses it.
- `RepoSetup`: deleting the old repository.
- `FailFast`: a `for` loop that rethrows the first error.
- `Batching`: cutting a key list into chunks.

## Model

| member | source | states |
|---|---|---|
| Layout.LanguageLocationsInjective | src/routes/api/commit-files/+server.js:6 | Two different language codes never share a repository path, a `languages/` blob key or a `translations/<id>/` blob key. |
| JsText.TrimEmptyIffBlank | src/routes/api/translate/+server.js:72 | `trim()` returns the empty string exactly when every character is JavaScript white space or a line terminator. |
| JsText.ParseDigits | src/routes/api/commit-component/+server.js:43 | `parseInt` of a non-empty all-digit string is that string's decimal value. |
| JsText.ParseDecimalString | src/routes/api/commit-component/+server.js:43 | `parseInt` reads back the decimal rendering of every natural number. |
| Retry.Invocations | src/routes/api/commit-component/+server.js:92-101 | The number of attempts from attempt `i` on lies in `(i, retries]`. |
| Retry.InvocationsShape | src/routes/api/commit-component/+server.js:92-101 | Every attempt before the last one failed; the last one fails only when all `retries` attempts were used. |
| Retry.RetryShape | src/routes/api/commit-component/+server.js:92-101 | With `retries <= 0` nothing is invoked and the result is `undefined`. Otherwise between 1 and `retries` attempts are made and the last outcome is returned or rethrown. Every attempt before it failed, and one pause separates each pair of attempts. |
| Retry.RetryReturnsFirstSuccess | src/routes/api/commit-component/+server.js:95 | When attempt `k` is the first to succeed, exactly `k + 1` attempts and `k` pauses happen, and attempt `k`'s value is returned. |
| Retry.FirstAttemptSucceeds | src/routes/api/commit-component/+server.js:95 | When the first attempt succeeds, its outcome is the result. |
| Retry.RetryIssuesOnly | src/routes/api/commit-component/+server.js:92-101 | The retry loop issues no request other than its operation's own. |
| Retry.RetryRethrowsLast | src/routes/api/commit-component/+server.js:97 | When every attempt fails, all of them are made and the last error is rethrown. |
| Retry.RetryOperation | src/routes/api/commit-component/+server.js:92-101 | The attempt loop computes exactly the specified run: the outcome, the attempt count and the pauses. |
| Retry.Retrying | src/routes/api/commit-component/+server.js:92-101 | The attempt loop issues one request per attempt and ends with the specified outcome and pauses. |
| RepoSetup.DeleteOld | src/routes/api/commit-component/+server.js:105-113 | The delete request is always issued once. Only an error other than 404 is rethrown. The 1-second pause follows a successful delete only. |
| RepoSetup.DeleteTolerated | src/routes/api/commit-component/+server.js:105-113 | After a successful delete or a 404, setup goes on with the next step, whose outcome becomes the result. |
| RepoSetup.DeleteRethrown | src/routes/api/commit-component/+server.js:112 | Any other delete error ends setup after the delete request, with that error. |
| RepoSetup.DeleteOldRepository | src/routes/api/commit-component/+server.js:105-113 | The delete step computes exactly `DeleteOld`. |
| FailFast.EachOutcome | src/routes/api/commit-files/+server.js:56-65 | A loop that rethrows succeeds exactly when every step succeeds. Then it yields every step's value, call and pause in order. Otherwise it stops at a first failing step `k`: steps before `k` succeeded and nothing after `k` runs. |
| FailFast.EachSucceeds | src/routes/api/commit-files/+server.js:56-65 | When every step succeeds, the loop's result, calls and pauses are the concatenation of the steps'. |
| FailFast.EachStopsAt | src/routes/api/commit-files/+server.js:56-65 | When step `k` is the first to fail, the loop rethrows its error after exactly the calls of steps `0..k`. |
| Batching.ChunksCover | src/routes/api/save-translations/+server.js:23-24 | The batches concatenate back to the key list. Each batch is non-empty and at most the batch size. There are `ceil(n / size)` of them. |
| Batching.ChunkAt | src/routes/api/save-translations/+server.js:24 | Batch `b` exists exactly when `b * size < n`, and it is the slice `[b * size, min(b * size + size, n))`. |
| CreateRepo.Post | src/routes/api/create-repo/+server.js:6-49 | The create request is issued exactly when a name is given and the token is configured. The answer is `Repository created` exactly when that request succeeds. Every failure has status 400, 422 or 500 and a non-empty message. |
| CreateRepo.NameCheckedFirst | src/routes/api/create-repo/+server.js:9-11 | A missing name is answered with 400 before the token is looked at, and no request is made. |
| CreateRepo.TokenCheckedSecond | src/routes/api/create-repo/+server.js:13-15 | With a name but no configured token the answer is 500 `GitHub token not configured`, and no request is made. |
| CreateRepo.CreatedCarriesData | src/routes/api/create-repo/+server.js:20-25 | A success carries the created repository's data. |
| CreateRepo.CreationErrorStatus | src/routes/api/create-repo/+server.js:26-49 | The answer is 422 exactly for a 422 whose first error says the name already exists, with a message naming the repository. Every other error gives 500 with the error's message or the default, and its details. |
| InitRepository.TwoAttempts | src/routes/api/init-repository/+server.js:6-20 | With `MAX_RETRIES` = 2, a retried request is made once when it succeeds. Otherwise it is made twice, 1000 ms apart, and ends with the second outcome. |
| InitRepository.SetupDeleteFailure | src/routes/api/init-repository/+server.js:25-33 | A delete error other than 404 aborts setup after the delete request alone. |
| InitRepository.SetupDeleteTolerated | src/routes/api/init-repository/+server.js:25-47 | After a delete that succeeded or found nothing, setup continues with creation from the template. |
| InitRepository.UpdateCarriesReadSha | src/routes/api/init-repository/+server.js:53-74 | The configuration update carries the `sha` from the read that succeeded. If the first update fails, it is retried once. |
| InitRepository.NotFoundAddsFile | src/routes/api/init-repository/+server.js:75-87 | When the read-and-update attempt ends with 404, the file is added without a `sha`, under the add message, with its own retries. |
| InitRepository.MissingFileAddedOnce | src/routes/api/init-repository/+server.js:55-87 | With the file missing, two reads 1000 ms apart are followed by one add. |
| InitRepository.OtherErrorsRethrown | src/routes/api/init-repository/+server.js:88-90 | Any other error of the read-and-update attempt is rethrown unchanged, and no add is made. |
| InitRepository.AttemptIssuesNoAdd | src/routes/api/init-repository/+server.js:53-74 | The read-and-update attempt issues only reads and updates that carry a `sha`. |
| InitRepository.SetupRepository | src/routes/api/init-repository/+server.js:23-94 | The setup steps compute exactly the specified setup flow. |
| InitRepository.WriteConfiguration | src/routes/api/init-repository/+server.js:53-91 | Writing the configuration computes exactly the specified read, update or add flow. |
| InitRepository.Caught | src/routes/api/init-repository/+server.js:118-127 | The handler answers with the error's status, or 500, and its message, or the default. |
| InitRepository.SetupNeverAuthenticates | src/routes/api/init-repository/+server.js:23-94 | Setting the repository up never looks the user up. |
| InitRepository.Post | src/routes/api/init-repository/+server.js:96-128 | Without a token it answers 500 and makes no request. Otherwise the user is looked up first and only once, with the setup's requests after it. It succeeds exactly when the user lookup and the setup succeed, with the URL `https://github.com/<login>/<name>`; any failure is the handler's answer to the error that ended the steps. |
| CommitFiles.SingleFile | src/routes/api/commit-files/+server.js:5-38 | The first request reads the language file, and every request targets its path. An update's `sha` is the one read. The file is added without a `sha` exactly when the read or the update reported 404, and then the add's outcome is the result. Otherwise the read error or the update's outcome is the result. |
| CommitFiles.Caught | src/routes/api/commit-files/+server.js:85-95 | The handler answers with the error's status, or 500, and its message, or the default. |
| CommitFiles.CommitLanguages | src/routes/api/commit-files/+server.js:56-65 | The per-language loop commits each language in key order and rethrows the first failure. |
| CommitFiles.DispatchRule | src/routes/api/commit-files/+server.js:67-78 | The deployment is dispatched exactly when this is the last batch, the user is known and every file was committed. The dispatch is the last request. A success lists every language. |
| CommitFiles.AllCommitted | src/routes/api/commit-files/+server.js:55-84 | Once the user is known and every commit succeeds, the trace is the user lookup, then the commits, then the dispatch on the last batch only. |
| CommitFiles.CommitFailed | src/routes/api/commit-files/+server.js:56-78 | A failed commit fails the request, and no deployment is dispatched. |
| CommitFiles.CommitsStopAtFirstFailure | src/routes/api/commit-files/+server.js:56-65 | A failed commit stops the loop at the first failing language: no later language is attempted. |
| CommitFiles.NoDispatchInCommits | src/routes/api/commit-files/+server.js:5-38 | Committing files never issues a dispatch. |
| CommitFiles.Post | src/routes/api/commit-files/+server.js:40-96 | With no `translations` it answers `Object.keys`'s TypeError with status 500; without a token it answers 500; neither makes a request. Otherwise success lists the languages with the processed-files message, and a failure is the handler's answer. |
| CommitComponent.MatchesNameMeaning | src/routes/api/commit-component/+server.js:165 | `^[a-zA-Z0-9-_]+$` matches exactly the non-empty strings of those characters. |
| CommitComponent.NameValidation | src/routes/api/commit-component/+server.js:165-166 | A given name is accepted exactly when it matches the pattern. A missing name is tested as the text `undefined`, which the pattern accepts. |
| CommitComponent.RateLimitPause | src/routes/api/commit-component/+server.js:40-48 | A rate-limited failure pauses at most once, only when a reset time is present, and only for a positive time. |
| CommitComponent.RateLimitPauseValue | src/routes/api/commit-component/+server.js:41-47 | For reset time `r`, the pause is `r * 1000 - now + 1000` ms when that is positive, and there is no pause otherwise. |
| CommitComponent.AttemptCount | src/routes/api/commit-component/+server.js:13-56 | The number of attempts never exceeds `maxRetries`. |
| CommitComponent.AttemptCountStops | src/routes/api/commit-component/+server.js:13-56 | Attempts continue only after a write that failed without the rate limit. A failing last attempt was rate-limited or was attempt `maxRetries`. |
| CommitComponent.FileFromShape | src/routes/api/commit-component/+server.js:13-57 | From any attempt on, the loop settles after the computed attempt count, with the calls, backoff pauses and final rate-limit pause of that many attempts. |
| CommitComponent.LanguageFileShape | src/routes/api/commit-component/+server.js:10-58 | With `maxRetries` < 1 nothing happens and the result is `undefined`. Otherwise `m` attempts of one read and one write each are made, with `attempt * 2000` ms between failed attempts. Success is `true`; the last write's error is thrown, after the rate-limit pause when there is one. |
| CommitComponent.RateLimitNotRetried | src/routes/api/commit-component/+server.js:40-55 | A rate-limited first write is not retried: its error is thrown after one attempt and the reset pause. |
| CommitComponent.CommitLanguageFile | src/routes/api/commit-component/+server.js:10-58 | The attempt loop computes exactly the specified file commit. |
| CommitComponent.CommitFromSuccess | src/routes/api/commit-component/+server.js:60-89 | A successful run processes every language, every file commit succeeded, and the trace is the commits in key order. |
| CommitComponent.CommitFromFailure | src/routes/api/commit-component/+server.js:60-89 | A failed run stops at the first failing language, after the commits before it. |
| CommitComponent.CommitAllOutcome | src/routes/api/commit-component/+server.js:60-89 | A success reports every language processed; a failure stops at the first failing file. |
| CommitComponent.CommitEntry | src/routes/api/commit-component/+server.js:70-72 | One language of a chunk is committed with its own content. |
| CommitComponent.CommitChunk | src/routes/api/commit-component/+server.js:66-86 | One chunk of five either stops the run with the failing file's error or hands on to the next chunk. Between files it pauses 500 ms, and between chunks 2000 ms. |
| CommitComponent.CommitLanguageFiles | src/routes/api/commit-component/+server.js:60-89 | The chunked loop computes exactly the specified run. |
| CommitComponent.SetupDeleteFailure | src/routes/api/commit-component/+server.js:105-113 | A delete error other than 404 aborts setup after the delete request alone. |
| CommitComponent.SetupDeleteTolerated | src/routes/api/commit-component/+server.js:104-127 | After a delete that succeeded or found nothing, setup continues with creation from the template. |
| CommitComponent.SetupWritesReadSha | src/routes/api/commit-component/+server.js:133-151 | The configuration update carries the `sha` of the first successful read, after as many reads as it took. |
| CommitComponent.SetupReadFailure | src/routes/api/commit-component/+server.js:133-139 | Three failed reads end setup with the last read's error. No write is attempted and no file is added. |
| CommitComponent.SetupSucceedsAtOnce | src/routes/api/commit-component/+server.js:103-154 | Setup succeeds when the delete, the creation, the first read and the first update succeed. |
| CommitComponent.SetupRepository | src/routes/api/commit-component/+server.js:103-154 | The setup steps compute exactly the specified setup flow. |
| CommitComponent.Caught | src/routes/api/commit-component/+server.js:224-234 | The handler answers with the error's status, or 500, and its message, or the default. It passes the error's details on. |
| CommitComponent.SetupNeverAuthenticates | src/routes/api/commit-component/+server.js:103-154 | Setting the repository up never looks the user up. |
| CommitComponent.StepsAuthenticateOnce | src/routes/api/commit-component/+server.js:178-216 | The user lookup is the first request and is never repeated. |
| CommitComponent.RunSteps | src/routes/api/commit-component/+server.js:177-216 | The user lookup, setup, translations and dispatch run in order, and the first error ends them. On success the login is the one looked up, with no second lookup. |
| CommitComponent.Post | src/routes/api/commit-component/+server.js:156-235 | Without a token it answers 500, and for a rejected name 400, before any request. Otherwise the user is looked up first and only once, and errors reach the handler. As written, every answer is a failure. |
| CommitComponent.PostFailsOnSuccess | src/routes/api/commit-component/+server.js:218-223 | Even when every remote call succeeds at once, the steps succeed and the answer is still the `languageStats` error. |
| CommitComponent.PostIntended | src/routes/api/commit-component/+server.js:156-235 | The corrected endpoint answers with the repository URL exactly when the steps succeed, and otherwise as the handler does. The user is looked up first and only once. |
| Translate.SendableMeaning | src/routes/api/translate/+server.js:72 | A value is sent for translation exactly when it is a string that is not all white space. |
| Translate.ReplaceQuotes | src/routes/api/translate/+server.js:75 | Every double quote becomes a single quote and every other character stays. No double quote is left. |
| Translate.TranslateJson | src/routes/api/translate/+server.js:66-84 | The loop over the entries computes exactly the specified translation. |
| Translate.TranslatedKeys | src/routes/api/translate/+server.js:71-80 | The translated object has exactly the keys whose values were sent. |
| Translate.TranslatedValues | src/routes/api/translate/+server.js:74-78 | Each sent key maps to its translation with the quotes replaced, or to the original text when its translation failed. |
| Translate.TranslatedErrors | src/routes/api/translate/+server.js:76-77 | There is one error per failed translation, carrying the key, the language label and the service's message, and no other error. |
| Translate.TranslatedCalls | src/routes/api/translate/+server.js:71-74 | The `j`-th request carries the `j`-th sendable value with the target language. Sendable values are sent in entry order, each exactly once, and no other value is sent. |
| Translate.ErrorsIffFailure | src/routes/api/translate/+server.js:66-84 | A language has errors exactly when some translation into it failed. |
| Translate.LanguagesDistinct | src/routes/api/translate/+server.js:16-41 | There are 24 target languages, with no code twice. |
| Translate.AggregateKeys | src/routes/api/translate/+server.js:179-188 | The response has a translated object for exactly the languages processed. |
| Translate.AggregateTranslations | src/routes/api/translate/+server.js:179-196 | Each language's object is exactly `translateJSON`'s result for that language. |
| Translate.AggregateErrors | src/routes/api/translate/+server.js:190-198 | The response carries warnings exactly when some translation into some language failed. |
| Translate.Post | src/routes/api/translate/+server.js:168-224 | A missing or empty source answers 500 `No content to translate` without a request. Otherwise the answer carries every language's object. `warning` is set exactly when there are errors; then the message says so and `details` lists them. |
| SaveTranslations.BatchEnd | src/routes/api/save-translations/+server.js:24 | A batch ends at most ten keys on, and earlier only at the end of the keys. |
| SaveTranslations.FirstFailed | src/routes/api/save-translations/+server.js:29-47 | A batch's first failing put, when any, is preceded only by puts that succeeded; with none, every put of the batch succeeded. |
| SaveTranslations.RejectionIsFirstFailure | src/routes/api/save-translations/+server.js:29-47 | The batch rejects with the error of its first failing put, and resolves when there is none. |
| SaveTranslations.PutBatch | src/routes/api/save-translations/+server.js:29-47 | Every put of the batch is issued, even after a failure. The URL map gains the URLs of the puts that succeeded. The batch rejects with its first failure. |
| SaveTranslations.SaveBatches | src/routes/api/save-translations/+server.js:23-48 | The batch loop computes exactly the specified batches. |
| SaveTranslations.SaveFromStep | src/routes/api/save-translations/+server.js:23-48 | One batch ends the loop with its first failure after issuing all its puts, or moves on ten keys with its URLs added. |
| SaveTranslations.BatchesAreChunks | src/routes/api/save-translations/+server.js:23-24 | The batches are the key list cut into chunks of ten, and there are `ceil(n / 10)` of them. |
| SaveTranslations.StoredKeys | src/routes/api/save-translations/+server.js:40 | When every put succeeds, the URL map gains exactly the batch's languages. |
| SaveTranslations.StoredValues | src/routes/api/save-translations/+server.js:40 | When every put succeeds, each language maps to the URL its put returned. |
| SaveTranslations.SaveSuccess | src/routes/api/save-translations/+server.js:23-48 | When every put succeeds, one put per language is issued in key order. The URL map has exactly the languages as keys, each with its URL. |
| SaveTranslations.SaveFailure | src/routes/api/save-translations/+server.js:29-47 | When put `k` is the first to fail, the run rejects with its error after every put up to the end of `k`'s batch. |
| SaveTranslations.BatchesNeverWriteIndex | src/routes/api/save-translations/+server.js:32-33 | No batch put writes the reference index. |
| SaveTranslations.IndexWrittenOnlyAfterBatches | src/routes/api/save-translations/+server.js:50-54 | The reference index is not written while batches run. |
| SaveTranslations.Post | src/routes/api/save-translations/+server.js:7-74 | A non-object `translations` answers 400 without a request. A failed batch answers 500 with its message and writes no index. Otherwise the index is written last, and the answer carries the reference id, the index URL and the language count, or 500 when that write fails. |
| BlobStorage.SaveTranslationsToBlob | src/lib/utils/blobStorage.js:3-21 | The loop computes exactly the specified sequence of puts. |
| BlobStorage.SaveSuccess | src/lib/utils/blobStorage.js:7-16 | When every put succeeds, one put per language is issued to `languages/<lang>.json` in order, and the saved list pairs each language with its URL. |
| BlobStorage.PutsIssued | src/lib/utils/blobStorage.js:7-11 | The puts issued are one per language, in key order, with each language's content. |
| BlobStorage.ValueSaved | src/lib/utils/blobStorage.js:12 | Entry `i` of the saved list is language `i` with its URL. |
| BlobStorage.SaveFailure | src/lib/utils/blobStorage.js:17-20 | The first failing put ends the loop, wrapped as `Failed to save translations: <message>`, and no later put is issued. |
| CleanupStorage.Caught | src/routes/api/cleanup-storage/+server.js:30-39 | The handler answers with the error's status, or 500, and its message, or the default. |
| CleanupStorage.DeleteAll | src/routes/api/cleanup-storage/+server.js:11-19 | The delete loop computes exactly the specified sequence of deletes. |
| CleanupStorage.DeleteCalls | src/routes/api/cleanup-storage/+server.js:11-19 | One delete per listed blob is issued, in listing order, on its URL. |
| CleanupStorage.EveryBlobDeleted | src/routes/api/cleanup-storage/+server.js:8-29 | When every delete succeeds, the trace is a listing, a delete per blob, then a second listing. The answer is a success exactly when that second listing succeeds, and it reports that listing's count. |
| CleanupStorage.CleanupStopsAtFailedDelete | src/routes/api/cleanup-storage/+server.js:11-19 | The first failing delete ends the cleanup with its error, and no later delete or listing happens. |
| CleanupStorage.Post | src/routes/api/cleanup-storage/+server.js:5-40 | The endpoint succeeds exactly when every step does, with the remaining count, and otherwise answers as the handler does. |
| DeployVercel.WaitForRepo | src/routes/api/deploy-vercel/+server.js:7-24 | The polling loop computes exactly the specified wait. |
| DeployVercel.WaitBounds | src/routes/api/deploy-vercel/+server.js:7-24 | Between 1 and `maxAttempts` polls of the repository are made, with 2000 ms between each pair. |
| DeployVercel.WaitReturnsFirstFound | src/routes/api/deploy-vercel/+server.js:11-16 | The first successful poll ends the wait, with that repository. |
| DeployVercel.WaitGivesUp | src/routes/api/deploy-vercel/+server.js:19-21 | After `maxAttempts` failed polls the wait throws its own error. |
| DeployVercel.GaveUpAfterFive | src/routes/api/deploy-vercel/+server.js:20 | That error reads `Failed to find repository after 5 attempts`. |
| DeployVercel.Caught | src/routes/api/deploy-vercel/+server.js:174-183 | The handler answers with the error's status, or 500, and its message, or the default. |
| DeployVercel.ProductionUrlDiffersOnlyWithoutField | src/routes/api/deploy-vercel/+server.js:165-167 | The URL as written throws exactly when the lookup answered without a `domains` field, where the intended URL is absent. Otherwise both agree. |
| DeployVercel.Post | src/routes/api/deploy-vercel/+server.js:26-184 | Missing configuration answers 500, and an unreadable body or a missing name 400, each without a request. Otherwise the answer reports the deployment exactly when every step succeeds, and otherwise it is the handler's answer. |
| DeployVercel.RepositoryNeverFound | src/routes/api/deploy-vercel/+server.js:60 | If the repository never appears, five polls are made and the request fails with the give-up error. |
| DeployVercel.ProjectFailureStopsDeployment | src/routes/api/deploy-vercel/+server.js:67-111 | A failed or rejected project creation fails the request. Neither the domains nor a deployment are requested. |
| DeployVercel.DomainLookupNonFatal | src/routes/api/deploy-vercel/+server.js:113-138 | In the corrected flow, the domain lookup's outcome changes neither the success nor the trace; it decides only the production URL. |
| DeployVercel.ProductionUrlAsIntendedWhenFieldPresent | src/routes/api/deploy-vercel/+server.js:165-167 | Unless the lookup succeeded without a `domains` field, the flow as written equals the corrected one. |
| DeployVercel.MissingDomainsFieldFailsDeployedRequest | src/routes/api/deploy-vercel/+server.js:130-166 | A lookup that succeeds without a `domains` field makes the request fail with 500, after the deployment was created. The corrected flow succeeds on the same input. |

## Left out

- JSON encoding and decoding, base64 and building the `json()` responses are not modelled. Payloads are opaque strings; each response is a datatype with its status and fields.
- Unreadable request bodies are not modelled for `translate`, `save-translations`, `commit-files`, `commit-component`, `init-repository` and `create-repo`. Each body is given already read. `deploy-vercel` models its own body check.
- The `details` of error responses that come from `error.stack` or `error.response?.data` are not modelled, in `commit-files`, `deploy-vercel` and `translate`. The `success: false` flag of the `translate` catch answer (src/routes/api/translate/+server.js:213-222) is not modelled either; `Translate.Response.Failure` carries only the status and the message.
- Logging is not modelled.
- Time and randomness become inputs: `Date.now()` in the rate-limit branch is the oracle's `now`, and the reference id of `save-translations` is a parameter.
- `Promise.all` in `save-translations` is modelled sequentially. All puts of a batch are issued before the join.
- SaveTranslations.PutBatch: the batch reports its first failing put in key order. `Promise.all` rejects with the first to settle, which depends on timing.
- `Object.entries` and `Object.keys` are taken in the given entry order. JavaScript lists integer-like keys first.
- CommitComponent.TranslationsStep: fetching the translation reference and the per-language files, then committing them, is one outcome. Only how its failure is rethrown is modelled, not the individual requests.
- Translate.Post: the per-language catch is not modelled. `translateJSON` catches every service error itself, so that branch is unreachable.
- CommitFiles.Post: `isLastBatch` is modelled as an optional boolean that triggers the dispatch only when it is `true`. Other truthy values are not modelled.
- CreateRepo.Post: its own contract bounds the failure statuses. The exact failure answers are stated by `CreateRepo.NameCheckedFirst` (no name), `CreateRepo.TokenCheckedSecond` (no token) and `CreateRepo.CreationErrorStatus` (a failed request).
- `src/lib/utils/translationHandler.js` and the stores under `src/lib/stores/` are not part of this model. They are client-side state and plumbing that call the endpoints.
- `src/routes/api/translations/[lang]/+server.js` is not part of this model. It serves stored translations to the client.

## Findings

| source | as written | input that shows it | evidently intended | confidence | as-written member | corrected member |
|---|---|---|---|---|---|---|
| src/routes/api/commit-component/+server.js:218-223 | The success body references `languageStats`, which is never declared. Reading it throws a ReferenceError, which the handler answers with 500. | A valid name with a configured token, where the user lookup, delete, creation, first read, first update and first dispatch all succeed and no translation reference is given. | Answer with the repository URL `https://github.com/<login>/<name>`. | not executed | CommitComponent.PostFailsOnSuccess | CommitComponent.PostIntended |
| src/routes/api/deploy-vercel/+server.js:166 | `domainsData?.domains[0]?.name` indexes `undefined` when the domain lookup answered `ok` without a `domains` field. The TypeError reaches the handler, and the request fails with 500 after the deployment was created. | The repository is found, the project is created, the domain lookup answers `ok` with `{}`, and the deployment request succeeds. | The domain lookup is non-fatal: report the deployment with no production URL. | not executed | DeployVercel.MissingDomainsFieldFailsDeployedRequest | DeployVercel.DomainLookupNonFatal |
