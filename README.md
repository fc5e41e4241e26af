# Pratyaksh.AI deepfake analysis: a Dafny model

Pratyaksh.AI is a web application that checks uploaded images, videos and audio files for
signs of manipulation. The server stores each upload in memory for 30 minutes. It then asks
Google Gemini for an authenticity report, trying every stored API key in turn. Each key is
kept as a provider with a failure record. A provider that failed three times within a minute
is skipped until its cooldown ends. When no provider answers with a usable report, a fixed
fallback report is returned. The browser shows the report as a results card and can export
it as a PDF.

This project models that core in Dafny, one module per source file:

- `AiAnalysis` (lib/ai-analysis.ts) covers the provider failure table, with its
  availability check and failure recording. It also covers the rate-limit classifier, the
  prompt, the request body, the reply cleaner and validator, the providers built from the
  keys, the dispatcher's failover loop and the fallback report. The module-level failure
  map is the field of a `ProviderTracker` class, and the dispatcher is a method over it
  with a loop. Each is proved against a specification function, and the failover and
  cooldown properties are proved as lemmas about those functions.
- `FileStorage` (lib/file-storage.ts) is the in-memory file store as a class, with the
  30-minute cleanup as an explicit expiry step. `GetStorageStats` is its summing loop.
- `KeyStorage` (lib/key-storage.ts) covers where the keys come from: the enumeration of
  numbered environment variables in production, the key file or the single variable in
  development, and the working-key count. `EnvValidation` (lib/env-validation.ts) covers
  the environment check. `AdminKeys` (app/api/admin/keys/route.ts) covers key masking and
  the merge of new keys into the stored ones.
- `UploadRoute` (app/api/upload/route.ts) is the server's upload check and store.
  `FileUpload` (components/file-upload.tsx) is the form's `validateFile` and
  `handleFileSelect`.
- `AnalyzeRoute` (app/api/analyze/route.ts) covers the analysis id, the progress stages,
  the results map and the GET lookup.
- `AnalysisResults` (components/analysis-results.tsx) and `PdfGenerator`
  (lib/pdf-generator.ts) are the helpers the results card and the PDF report are written
  from.
- `VisualizerPortal` (components/visualizer-portal.tsx) and `DeepfakeAnalysis`
  (components/deepfake-analysis.tsx) are the two animated client components, with their
  React state as class fields. They share `ClientMedia`, their common file check, and
  `ProgressSteps`, the counting loops that animate their progress bars.
- `Strings` models the parts of the JavaScript string API the code relies on, and
  `Wrappers` holds `Option` and `Result`.

Things the program gets from outside become parameters:

- the clock reading (`now`);
- the random draws;
- the process environment (a map);
- the key file's content;
- the upstream HTTP exchange (one outcome per provider and request);
- `JSON.parse` (a partial function);
- `formatFileSize`.

Three behaviours of the code are easy to misread, and the model follows the code in each:

- A provider that answers with a non-2xx status has its failure recorded twice: once in
  `callGeminiAPI` (lib/ai-analysis.ts:334-335) and once in the dispatcher's catch
  (lib/ai-analysis.ts:520-522). A single 429 therefore raises the count by two, not by
  one. `FailedAttemptsCount`, `RateLimitedAttempt` and `RateLimitedKeyScenario` state this.
- A failure is added to an existing record whatever the record's age
  (lib/ai-analysis.ts:53-63). A stale record is only dropped by the next availability
  check, not by recording a new failure.
- At exactly 60000 ms after the last failure, the count still decides availability, because
  the cooldown test is a strict `>`.

## Model

| member | source | states |
|---|---|---|
| FileStorage.TotalSizeRemove | lib/file-storage.ts:63-67 | the total size of the stored files is the size of any one of them plus the total of the rest |
| FileStorage.TotalSizeStore | lib/file-storage.ts:26 | storing under an id replaces that id's size in the total and adds to it otherwise |
| FileStorage.TotalSizeDelete | lib/file-storage.ts:57 | deleting an id takes its size out of the total; deleting an absent id changes nothing |
| FileStorage.FileStore.constructor | lib/file-storage.ts:14-17 | the store starts with no files and no pending cleanups |
| FileStorage.FileStore.StoreFile | lib/file-storage.ts:19-37 | the file is stored under its id (replacing any earlier one), its old cleanup is cancelled and one fires 30 minutes later; the file count grows by one exactly when the id is new |
| FileStorage.FileStore.GetFile | lib/file-storage.ts:39-47 | a file is returned exactly when its id is stored, and it is the stored file; nothing changes |
| FileStorage.FileStore.DeleteFile | lib/file-storage.ts:49-61 | the entry and its cleanup are removed and nothing else changes; deleting an absent id is a no-op |
| FileStorage.FileStore.Expire | lib/file-storage.ts:29-32 | exactly the files whose cleanup is due are gone; the others and their cleanups are untouched |
| FileStorage.FileStore.GetStorageStats | lib/file-storage.ts:63-73 | the count is the number of stored files and the size is the sum of their buffer lengths |
| FileStorage.StoreThenGet | lib/file-storage.ts:19-47 | a stored file is found right away, still found before 30 minutes pass, and gone once its cleanup has fired |
| KeyStorage.Ids | lib/key-storage.ts:42 | `Object.keys`: the identifiers of the key object, in order |
| KeyStorage.IdIndex | lib/key-storage.ts:38 | the first position holding the identifier, None exactly when it is absent |
| KeyStorage.IdIndexAppend | lib/key-storage.ts:38 | adding a new property last does not move the others |
| KeyStorage.Get | lib/key-storage.ts:38 | a property read is None exactly when the identifier is absent |
| KeyStorage.Put | lib/key-storage.ts:31-38 | after `keys[id] = value` the id reads back the value, every other id reads as before, an existing id keeps its place, a new one is appended, and identifiers stay unique |
| KeyStorage.KeyIdInjective | lib/key-storage.ts:37-38 | `key${n}` names differ for different n |
| KeyStorage.NumberedKeyVarInjective | lib/key-storage.ts:36 | `GEMINI_API_KEY_${i}` names differ for different i |
| KeyStorage.NumberedNamesCount | lib/key-storage.ts:36 | the first n numbered variable names are n distinct names |
| KeyStorage.NumberedVarsBound | lib/key-storage.ts:36-40 | a run of set numbered variables is no longer than the environment, so the loop ends |
| KeyStorage.GapExists | lib/key-storage.ts:36 | every environment has a first unset numbered variable |
| KeyStorage.ConsecutiveCount | lib/key-storage.ts:36-40 | the number of numbered variables before the first gap: all before it are set and the next is not |
| KeyStorage.ConsecutiveCountUnique | lib/key-storage.ts:36-40 | that first gap is unique |
| KeyStorage.LoadKeysFromStorage | lib/key-storage.ts:11-66 | returns exactly the loaded-keys specification: the production error, the environment keys in production, the key file in development, else `key1` from `GEMINI_API_KEY` |
| KeyStorage.LoadNumberedKeys | lib/key-storage.ts:35-40 | the loop stores `GEMINI_API_KEY_i` under `key{i+1}` for every i before the first gap, after the primary key |
| KeyStorage.NumberedKeyAdded | lib/key-storage.ts:37-38 | one loop step appends exactly the next numbered key |
| KeyStorage.FreshNumberedId | lib/key-storage.ts:37-38 | the identifier the loop writes next is not taken yet, so every write adds a property |
| KeyStorage.LoadFailsIffProductionWithoutPrimary | lib/key-storage.ts:16-23 | loading throws exactly at run time in production without `GEMINI_API_KEY`, and the message names that variable |
| KeyStorage.MessageNamesFirst | lib/key-storage.ts:21 | the thrown message names the first missing variable |
| KeyStorage.ProductionKeys | lib/key-storage.ts:25-44 | in production the key file plays no part, `key1` holds `GEMINI_API_KEY` when set, and `key{k+1}` is present exactly when `GEMINI_API_KEY_1` to `GEMINI_API_KEY_k` are all set |
| KeyStorage.ProductionKeyIds | lib/key-storage.ts:35-40 | `key{k+1}` is loaded if and only if the first k numbered variables are set |
| KeyStorage.ConsecutiveKeyListed | lib/key-storage.ts:35-40 | every numbered variable before the first gap gives a key |
| KeyStorage.ListedKeyConsecutive | lib/key-storage.ts:35-40 | no key is loaded from a numbered variable after the first gap |
| KeyStorage.LoadedKeysUnique | lib/key-storage.ts:11-66 | whatever is loaded has no identifier twice |
| KeyStorage.ProductionKeysUnique | lib/key-storage.ts:27-40 | the production key object has no identifier twice |
| KeyStorage.SaveKeysToStorage | lib/key-storage.ts:68-83 | a failed write reports "Failed to save keys to persistent storage" |
| KeyStorage.GetWorkingKeysCount | lib/key-storage.ts:85-87 | the count of non-blank values: at most the number of keys, equal to it exactly when every value has text, zero exactly when none has |
| KeyStorage.WorkingKeysCountAppend | lib/key-storage.ts:85-87 | the count adds up over consecutive parts of the key object |
| EnvValidation.CountSet | lib/env-validation.ts:29-33 | the backups filter counts at most as many names as it is given |
| EnvValidation.CountSetBounds | lib/env-validation.ts:29-33 | the count is 0 exactly when none of the names is set and full exactly when all are |
| EnvValidation.ValidateEnvironment | lib/env-validation.ts:19-59 | valid exactly when nothing is missing, exactly when `GEMINI_API_KEY` is set; the key count is at most 4, 0 exactly when none of the four variables is set (and then both missing entries appear, in order) and 4 exactly when all are; the backup warning appears exactly when one key is counted, the production warning exactly in production with fewer than two keys |
| EnvValidation.LaterBackupsIgnored | lib/env-validation.ts:29-35 | variables other than the primary key, the three counted backups, `NODE_ENV` and `VERCEL` do not change the result |
| EnvValidation.CountSetUnchanged | lib/env-validation.ts:29-33 | setting a variable outside the filtered names leaves their count alone |
| AdminKeys.MaskKey | app/api/admin/keys/route.ts:15 | the masked key has the key's length, its first eight characters and a `*` for every later one |
| AdminKeys.MaskKeyShows | app/api/admin/keys/route.ts:15 | a key of at most eight characters (the empty key among them) is shown whole, a longer one keeps its first eight characters, and masking twice is masking once |
| AdminKeys.MaskedKeys | app/api/admin/keys/route.ts:17-20 | the masked object has the same ids in the same order, each value masked |
| AdminKeys.MaskAll | app/api/admin/keys/route.ts:17-20 | the `forEach` writing each masked value into a fresh object builds exactly the masked object |
| AdminKeys.MergeKeys | app/api/admin/keys/route.ts:40-50 | writing the posted string values keeps the identifiers unique |
| AdminKeys.MergeLookup | app/api/admin/keys/route.ts:40-50 | after POST's loop an id holds the last string posted for it; an id with no string posted keeps its stored value or stays absent |
| AdminKeys.MergeKeepsIds | app/api/admin/keys/route.ts:40-50 | the loop deletes and reorders nothing: the stored ids come first, in their order |
| AdminKeys.MergedEnvPrimary | app/api/admin/keys/route.ts:46-48 | `GEMINI_API_KEY` becomes the last string posted for `key1`, and the environment is untouched when none was posted |
| AdminKeys.KeysRoute.constructor | app/api/admin/keys/route.ts:5 | at import the stored list is exactly what `loadKeysFromStorage` returns for the environment and key file, and its ids are unique; a load that throws is excluded (see Left out) |
| AdminKeys.KeysRoute.Get | app/api/admin/keys/route.ts:11-34 | a load that throws answers 500 "Failed to load keys" and keeps the old keys; otherwise the keys are replaced by the loaded ones and listed masked with the total and working counts |
| AdminKeys.KeysRoute.Post | app/api/admin/keys/route.ts:36-66 | an unreadable body answers 500 and changes nothing; otherwise every string value is stored and a string `key1` sets `GEMINI_API_KEY`, then a failed save answers 500 with the changes kept in memory and a good save answers the totals |
| UploadRoute.Post | app/api/upload/route.ts:18-85 | the response is the specified outcome, the 500 "Failed to process file upload" of the catch included; only a file field is ever accepted, and it is stored under its id with a cleanup 30 minutes on, while a refused form leaves the store unchanged |
| UploadRoute.UploadAcceptedIff | app/api/upload/route.ts:19-85 | a form is accepted exactly when its field is a file within its family's inclusive limit and of an accepted type; an unreadable form or a non-empty text field (whose missing `type` makes `startsWith` throw) gives 500, no field or an empty one 400 "No file provided", an oversized file 413 whatever its type (size is checked first), a supported size with an unsupported type 400 |
| UploadRoute.SizeLimits | app/api/upload/route.ts:14-32 | 10 MiB for `image/`, 25 MiB for `audio/`, 50 MiB for everything else |
| UploadRoute.UploadMetadata | app/api/upload/route.ts:57-69 | an accepted upload's id is the decimal time stamp, the metadata echoes name, size, type and upload time, and the stored file name is the id, a dash and the original name |
| UploadRoute.FileIdFromFilename | app/api/upload/route.ts:59-60 | the id is the part of the stored file name before its first dash |
| UploadRoute.DistinctTimestampsDistinctIds | app/api/upload/route.ts:58-60 | uploads at different times get different ids |
| AnalyzeRoute.Truthy | app/api/analyze/route.ts:17 | the `!fileId \|\| !metadata` test: a field is falsy exactly when it is absent, null, false, 0 or the empty string |
| AnalyzeRoute.NumberRendersAsDigits | app/api/analyze/route.ts:21 | a numeric file id is rendered as its digits, so it names the same analysis as that digit string, and different numbers give different ids |
| AnalyzeRoute.AnalysisId | app/api/analyze/route.ts:21 | the analysis id is `analysis-` followed by the file id |
| AnalyzeRoute.FileIdRoundTrip | app/api/analyze/route.ts:21-55 | replacing the first `analysis-` in the analysis id gives back the file id, whatever the file id contains |
| AnalyzeRoute.AnalysisIdInjective | app/api/analyze/route.ts:21 | different files are tracked under different analysis ids |
| AnalyzeRoute.AnalysisStages | app/api/analyze/route.ts:41-94 | a run makes six progress updates when the file is found and four when it is not |
| AnalyzeRoute.StagesShape | app/api/analyze/route.ts:44-92 | only the last update is marked completed; before it the stages count 1, 2, 3 (then 4, 5); the run ends at stage 6 "Analysis complete" when the file was found and at stage 0 otherwise |
| AnalyzeRoute.AnalyzeStoredFile | app/api/analyze/route.ts:70 | the report and the failure table after `analyzeFile` on the stored file's type, original name and bytes are those of the dispatch specification |
| AnalyzeRoute.Tagged | app/api/analyze/route.ts:44-92 | each progress update is tagged with its analysis id, one per stage, in order |
| AnalyzeRoute.StagesLogged | app/api/analyze/route.ts:44-92 | the opening and closing updates together are the run's stage list |
| AnalyzeRoute.AnalyzeRoute.constructor | app/api/analyze/route.ts:11 | no results, no progress and no updates at start |
| AnalyzeRoute.AnalyzeRoute.UpdateProgress | app/api/analyze/route.ts:2 | `updateProgress`, imported here from the progress route, where it is lines 25-27: the entry replaces the analysis's progress and is logged; results are untouched |
| AnalyzeRoute.AnalyzeRoute.PerformAnalysis | app/api/analyze/route.ts:41-94 | the updates are the run's stages and the progress ends at its final stage; a file no longer stored leaves results and failures alone, a stored one gets the specified report under the analysis id |
| AnalyzeRoute.AnalyzeRoute.AnalyzeStored | app/api/analyze/route.ts:68-86 | the report is stored under the analysis id and the failure table advances as specified; progress is untouched |
| AnalyzeRoute.AnalyzeRoute.BeginStages | app/api/analyze/route.ts:43-53 | stages 1 to 3 are logged in order and the progress shows stage 3 |
| AnalyzeRoute.AnalyzeRoute.EndStages | app/api/analyze/route.ts:58-92 | stages 4, 5 and 6 are logged after a found file and stage 0 "Analysis failed" otherwise |
| AnalyzeRoute.AnalyzeRoute.Post | app/api/analyze/route.ts:13-39 | an unreadable body answers 500 and a falsy file id or metadata 400, with nothing changed; it starts exactly when both are truthy, under `analysis-` and the file id as a template literal renders it (a number by its digits); then the updates are that run's stages, the progress ends at its final stage, and a stored file's report is kept and the failure table advanced as specified, while a missing file leaves both alone |
| AnalyzeRoute.AnalyzeRoute.Get | app/api/analyze/route.ts:97-115 | 400 without an id, 404 while no report is stored under it, otherwise exactly the stored report |
| AnalyzeRoute.StartThenFetch | app/api/analyze/route.ts:13-115 | starting an analysis and then fetching it gives the report `analyzeFile` produced for a stored file, and 404 for a file that is not stored, though the start answered success |
| FileUpload.LookupType | components/file-upload.tsx:30-44 | `ACCEPTED_TYPES[file.type]` finds an entry exactly when the type is one of the table's keys, and the entry found is that key's |
| FileUpload.ExpectedExtensions | components/file-upload.tsx:55 | one extension per table entry, in table order, each the entry's extension without its dot, three letters long |
| FileUpload.ValidateFile | components/file-upload.tsx:25-66 | no message exactly when the file is non-empty, of a listed type, within that type's limit, has a listed extension and a name of at most 255 characters; an empty file gets the empty-file message whatever else holds, an unlisted type the unsupported-type message |
| FileUpload.TableContents | components/file-upload.tsx:26-38 | seven types, with limits of 10 MiB for images, 50 MiB for video and 25 MiB for audio |
| FileUpload.ExtensionList | components/file-upload.tsx:31-55 | the expected extensions are jpg, png, mp4, mov, mp3, wav and m4a, in that order |
| FileUpload.SizeLimitReported | components/file-upload.tsx:49-52 | a file over its limit gets the size message with the limit in whole MiB (10, 50 or 25) and the type's family |
| FileUpload.LaterChecks | components/file-upload.tsx:54-63 | within its limit, a file with an unlisted extension gets the extension message even when its name is too long; a listed extension with a name over 255 characters gets the name message |
| FileUpload.ExtensionIsAfterLastDot | components/file-upload.tsx:54 | the extension is the lower-cased text after the last dot |
| FileUpload.ExtensionWithoutDot | components/file-upload.tsx:54 | a name without a dot is its own extension, lower-cased |
| FileUpload.CaseInsensitive | components/file-upload.tsx:54-59 | lower-casing the name does not change the verdict |
| FileUpload.ExtensionOf | components/file-upload.tsx:54 | in a lower-case name the extension is what follows the last dot |
| FileUpload.ExtensionNotMatchedToType | components/file-upload.tsx:54-59 | the extension is checked against the whole list, not the file's type: "clip.mp3" typed `image/png` passes |
| FileUpload.JpegExtensionRefused | components/file-upload.tsx:31-59 | "x.jpeg" typed `image/jpeg` is refused for its extension |
| FileUpload.BareExtensionAccepted | components/file-upload.tsx:54-59 | a file named just "mp4" passes, since a name without a dot is its own extension |
| FileUpload.FileUpload.constructor | components/file-upload.tsx:19-20 | no file selected and no error at first |
| FileUpload.FileUpload.HandleFileSelect | components/file-upload.tsx:68-78 | a file that fails a check sets its message and clears the selection; one that passes clears the error and is selected |
| ProgressSteps.Steps | components/deepfake-analysis.tsx:107-118 | the values the counting loop gives `i`: as many as the loop's iterations |
| ProgressSteps.StepsCons | components/visualizer-portal.tsx:124-144 | a loop that starts takes `lo` first and then the values of the loop one step on |
| ProgressSteps.StepsNone | components/visualizer-portal.tsx:124-144 | a loop whose start is past its end takes no values |
| ProgressSteps.StepsShape | components/deepfake-analysis.tsx:107-118 | every value lies in [lo, hi] and each is `step` above the one before |
| ProgressSteps.StepsEnd | components/deepfake-analysis.tsx:107-118 | when `hi` is n steps above `lo` the loop takes n + 1 values and the last is `hi` |
| ProgressSteps.StepsNonDecreasing | components/visualizer-portal.tsx:124-144 | the values never go down |
| ProgressSteps.StepsUp | components/visualizer-portal.tsx:124-144 | along a run rising by `step` at each position, later values are not smaller |
| ProgressSteps.NonDecreasingJoin | components/visualizer-portal.tsx:124-144 | two rising runs joined where the first ends no higher than the second starts still never go down |
| ClientMedia.GetFileType | components/deepfake-analysis.tsx:36-41 | video exactly for a `video/` type, audio exactly for an `audio/` type, image for everything else |
| ClientMedia.CheckFileIff | components/deepfake-analysis.tsx:43-67 | a file passes exactly when its type is on the allow list and its size is at most its family's limit; it is refused as unsupported exactly when the type is not listed, and as too large only when it exceeds its limit |
| ClientMedia.AllowedTypesKinds | components/visualizer-portal.tsx:50-60 | every allowed type has an image, video or audio prefix and gets that family's limit (10, 100 or 50 MiB), so the fallback to images is never used for an allowed type |
| DeepfakeAnalysis.ValidateFile | components/deepfake-analysis.tsx:43-67 | no message exactly when the shared check passes; the unsupported-type message for an unlisted type and the too-large message otherwise |
| DeepfakeAnalysis.TooLargeMessageLimit | components/deepfake-analysis.tsx:61-64 | a too-large file exceeds the limit applied, and the message names that limit in whole MiB (10, 100 or 50) and the family |
| DeepfakeAnalysis.ProgressTraceShape | components/deepfake-analysis.tsx:102-118 | the bar never goes back, stays within [0, 100] and ends at 100 |
| DeepfakeAnalysis.RunEnds | components/deepfake-analysis.tsx:102-118 | the two loops after the reset give one run's trace, ending at 100 |
| DeepfakeAnalysis.DeepfakeAnalysis.constructor | components/deepfake-analysis.tsx:29-34 | the hooks' initial values |
| DeepfakeAnalysis.DeepfakeAnalysis.SetProgress | components/deepfake-analysis.tsx:31 | the bar shows the value set, which is logged |
| DeepfakeAnalysis.DeepfakeAnalysis.SetState | components/deepfake-analysis.tsx:30 | the state shown is the one set, which is logged |
| DeepfakeAnalysis.DeepfakeAnalysis.HandleFileSelect | components/deepfake-analysis.tsx:69-80 | an invalid file only sets the message, and the selection, result and bar stay as they were; a valid one is selected, the error and result cleared and the bar reset to 0; the state and confidence never change |
| DeepfakeAnalysis.DeepfakeAnalysis.ProgressLoop | components/deepfake-analysis.tsx:107-118 | `for (let i = lo; i <= hi; i += step) setProgress(i)` logs exactly the loop's values |
| DeepfakeAnalysis.DeepfakeAnalysis.RunPhases | components/deepfake-analysis.tsx:103-118 | uploading and analyzing are set in order and the bar runs 0, 0 to 30 by 5, 30 to 100 by 10, ending at 100 |
| DeepfakeAnalysis.DeepfakeAnalysis.SimulateAnalysis | components/deepfake-analysis.tsx:102-129 | the verdict is the drawn one of three and the confidence 70 to 99; the bar runs its full trace, the states pass uploading, analyzing and completed, and the verdict and confidence are shown and passed on |
| DeepfakeAnalysis.DeepfakeAnalysis.ResetAnalysis | components/deepfake-analysis.tsx:131-138 | no selection, idle, bar 0, no result, confidence 0, no error |
| VisualizerPortal.ValidateFile | components/visualizer-portal.tsx:49-73 | no message exactly when the shared check passes; the unsupported-type message for an unlisted type and the limit message otherwise |
| VisualizerPortal.ProgressTraceShape | components/visualizer-portal.tsx:117-144 | the bar never goes back, stays within [0, 100] and ends at 100 |
| VisualizerPortal.TracesEnd | components/visualizer-portal.tsx:140-144 | a run ends with the bar at 100 and the scan at 40 |
| VisualizerPortal.RunEnds | components/visualizer-portal.tsx:120-144 | the three loops after the reset give one run's trace, ending at 100 |
| VisualizerPortal.ScanEnds | components/visualizer-portal.tsx:140-144 | a scanning trace extended by one run ends at 40 |
| VisualizerPortal.ScanTraceShape | components/visualizer-portal.tsx:140-144 | the scanning progress starts at 0, never goes back, stays within [0, 40] and ends at 40 |
| VisualizerPortal.MinusCons | components/visualizer-portal.tsx:142 | lowering the scan values one step at a time |
| VisualizerPortal.Minus | components/visualizer-portal.tsx:142 | each scan value is the progress value less 60 |
| VisualizerPortal.VisualizerPortal.constructor | components/visualizer-portal.tsx:31-39 | the hooks' initial values |
| VisualizerPortal.VisualizerPortal.SetProgress | components/visualizer-portal.tsx:34 | the bar shows the value set, which is logged |
| VisualizerPortal.VisualizerPortal.SetScanningProgress | components/visualizer-portal.tsx:39 | the scan shows the value set, which is logged |
| VisualizerPortal.VisualizerPortal.SetState | components/visualizer-portal.tsx:33 | the state shown is the one set, which is logged |
| VisualizerPortal.VisualizerPortal.CreateParticles | components/visualizer-portal.tsx:75-81 | eight particles, the i-th with id `now + i` and delay `i * 200` |
| VisualizerPortal.VisualizerPortal.HandleFileSelect | components/visualizer-portal.tsx:83-95 | an invalid file only sets the message, and the selection, result, bar and particles stay as they were; a valid one is selected, the error and result cleared, the bar reset to 0 and eight particles created, the i-th with id now + i and delay i * 200; the state, scan progress and confidence never change |
| VisualizerPortal.VisualizerPortal.ProgressLoop | components/visualizer-portal.tsx:124-135 | the counting loop logs exactly its values |
| VisualizerPortal.VisualizerPortal.ScanLoop | components/visualizer-portal.tsx:140-144 | each step logs `i` on the bar and `i - 60` on the scan |
| VisualizerPortal.VisualizerPortal.ScanStep | components/visualizer-portal.tsx:141-142 | one scanning step sets both values |
| VisualizerPortal.VisualizerPortal.SimulateAnalysis | components/visualizer-portal.tsx:117-155 | without a selection nothing changes; otherwise the bar, scan and state run their full traces, the drawn verdict and a confidence of 70 to 99 are shown and reported with the file's family |
| VisualizerPortal.VisualizerPortal.RunAndShow | components/visualizer-portal.tsx:120-153 | the three loops and then the verdict shown, ending completed at 100 and 40 |
| VisualizerPortal.VisualizerPortal.ShowResult | components/visualizer-portal.tsx:151-153 | the verdict and confidence are shown and the state becomes completed |
| VisualizerPortal.VisualizerPortal.RunPhases | components/visualizer-portal.tsx:120-144 | uploading, analyzing and scanning are set in order; the bar runs its trace to 100 and the scan to 40 |
| VisualizerPortal.VisualizerPortal.ScanPhase | components/visualizer-portal.tsx:137-144 | scanning is set and the scanning loop runs |
| VisualizerPortal.VisualizerPortal.UploadAndAnalyze | components/visualizer-portal.tsx:120-135 | the upload and analysis loops run, each after its state |
| VisualizerPortal.VisualizerPortal.UploadPhase | components/visualizer-portal.tsx:120-127 | uploading is set, the bar reset to 0, and the upload loop runs |
| VisualizerPortal.VisualizerPortal.AnalyzePhase | components/visualizer-portal.tsx:129-135 | analyzing is set and the analysis loop runs |
| VisualizerPortal.VisualizerPortal.ResetAnalysis | components/visualizer-portal.tsx:157-166 | no selection, idle, bar and scan at 0, no result, confidence 0, no error, no particles |
| AiAnalysis.AfterAvailabilityCheck | lib/ai-analysis.ts:36-51 | the availability check can only drop a record, and never touches another provider's record |
| AiAnalysis.RecordFailure | lib/ai-analysis.ts:53-63 | recording a failure gives the provider a record and leaves every other provider's record as it was |
| AiAnalysis.ProviderTracker.constructor | lib/ai-analysis.ts:30 | the failure table starts empty |
| AiAnalysis.ProviderTracker.IsProviderAvailable | lib/ai-analysis.ts:36-51 | the answer is the availability rule on the table before the call; the new table is the old one after the check |
| AiAnalysis.ProviderTracker.RecordProviderFailure | lib/ai-analysis.ts:53-63 | the new table is the old one with the failure recorded |
| AiAnalysis.AvailabilityRules | lib/ai-analysis.ts:36-51 | a provider with no record is available; one whose last failure is more than 60000 ms old is available and its record is dropped; otherwise it is available exactly while its count is below 3 |
| AiAnalysis.RecordFailureCounts | lib/ai-analysis.ts:53-63 | a failure adds one to the provider's count whatever the age of its record, stamps it with the current time, and leaves every other count alone |
| AiAnalysis.AvailabilityCheckIdempotent | lib/ai-analysis.ts:36-51 | a second check at the same time changes neither the table nor the answer |
| AiAnalysis.ThreeStrikesCooldown | lib/ai-analysis.ts:30-63 | three failures at time t make a fresh provider unavailable up to t + 60000 and available after it |
| AiAnalysis.IsRateLimitError | lib/ai-analysis.ts:65-72 | a 429 status is a rate limit; otherwise the error counts as one exactly when its lower-cased message contains "rate limit", "quota" or "too many requests" |
| AiAnalysis.PromptSection | lib/ai-analysis.ts:115-174 | the prompt section is chosen by media family in the order image, video, audio, and there is none for other types |
| AiAnalysis.PromptWording | lib/ai-analysis.ts:74-178 | the prompt reads as the base prompt, then the media family's section, then "File: <name>" and "Type: <type>" on two lines |
| AiAnalysis.JoinedAppend | lib/ai-analysis.ts:177 | the text of two lists of prompt parts is the first list's text followed by the second's |
| AiAnalysis.SliceJson | lib/ai-analysis.ts:192-197 | the slice is never longer than the text, and the text is left as it is when no `{` comes before a `}` |
| AiAnalysis.BracedSpanFound | lib/ai-analysis.ts:192-196 | `indexOf("{")` and `lastIndexOf("}")` both succeed with the first before the last exactly when some `{` comes before some `}` |
| AiAnalysis.SliceJsonBraced | lib/ai-analysis.ts:192-197 | when a `{` comes before a `}`, the slice starts with `{`, ends with `}`, has no `{` before it and no `}` after it in the text |
| AiAnalysis.ParseAIResponse | lib/ai-analysis.ts:180-216 | an empty reply is rejected with "Empty response from <provider>"; the reply is accepted exactly when the cleaned text parses and has a non-zero score, a non-empty confidence level, indicators and a non-empty assessment; every other reply is rejected with "Could not parse response from <provider>"; an accepted report carries the parsed fields, with no factors turned into an empty list |
| AiAnalysis.NoFenceAfterRemoval | lib/ai-analysis.ts:189 | after every "```" is removed from left to right, no "```" is left in the text |
| AiAnalysis.CleanedHasNoFence | lib/ai-analysis.ts:186-197 | the text handed to `JSON.parse` never contains "```" |
| AiAnalysis.SliceJsonKeepsAbsent | lib/ai-analysis.ts:192-197 | cutting down to the braced span cannot bring in a string the text did not contain |
| AiAnalysis.FencedReplyUnwrapped | lib/ai-analysis.ts:186-197 | a JSON object wrapped in a "```json" code block reaches `JSON.parse` as exactly that object |
| AiAnalysis.OpeningFenceRemoved | lib/ai-analysis.ts:189 | in a fenced reply, removing "```json" removes only the opening fence and the newline after it |
| AiAnalysis.ClosingFenceRemoved | lib/ai-analysis.ts:189 | in a fenced reply, removing "```" removes only the closing fence |
| AiAnalysis.BracedSpanOfLine | lib/ai-analysis.ts:192-197 | a JSON object followed by a newline is cut down to the object |
| AiAnalysis.GetGeminiProviders | lib/ai-analysis.ts:476-492 | the loop builds exactly the providers of the keys whose value is not blank, in the keys' order |
| AiAnalysis.GeminiProvidersAppend | lib/ai-analysis.ts:480-489 | the providers of two key lists are the providers of the first followed by those of the second, so the keys' order is kept |
| AiAnalysis.GeminiProvidersAreWorkingKeys | lib/ai-analysis.ts:476-492 | there are as many providers as working keys; a provider is built exactly for each key whose value is not blank |
| AiAnalysis.ProviderNameInjective | lib/ai-analysis.ts:483 | two key identifiers with the same provider name are the same identifier |
| AiAnalysis.GeminiProvidersDistinct | lib/ai-analysis.ts:476-492 | keys with distinct identifiers give providers with distinct names |
| AiAnalysis.FilterAvailable | lib/ai-analysis.ts:499-501 | the providers kept are among the providers given, and no more of them |
| AiAnalysis.FilterAvailableProviders | lib/ai-analysis.ts:499-501 | the loop keeps the providers and leaves the table that the filter function gives for the table before it |
| AiAnalysis.FilterLeavesOthers | lib/ai-analysis.ts:499-501 | filtering leaves the record of a provider not in the list exactly as it was |
| AiAnalysis.FilterAvailableMembers | lib/ai-analysis.ts:499-501 | with distinct names, a provider is kept exactly when its key is not empty and it was available in the table the request started with |
| AiAnalysis.FilterKeepsDistinct | lib/ai-analysis.ts:499-501 | the providers kept still have distinct names |
| AiAnalysis.RoundToMiB | lib/ai-analysis.ts:247 | the size in MB is the byte count divided by 1048576, rounded to the nearest whole number with halves rounded up |
| AiAnalysis.BuildRequest | lib/ai-analysis.ts:241-306 | without a file type the request is the prompt alone; a file of at most 15 MiB goes inline with the prompt; a larger file becomes a text-only request of the prompt followed by the large-file note |
| AiAnalysis.LargeFileWording | lib/ai-analysis.ts:243-276 | the text of a large-file request is the prompt's text followed by the note's text |
| AiAnalysis.LargeFileSizeReported | lib/ai-analysis.ts:243-247 | a file sent text-only is reported as at least 15 MB |
| AiAnalysis.CallResult | lib/ai-analysis.ts:223-355 | a missing key fails with "<provider> API key not configured"; a report comes back only for a configured key, a 2xx response and a non-empty text, and it is that text's parse |
| AiAnalysis.CallGeminiAPI | lib/ai-analysis.ts:223-355 | the call returns the result for the upstream's answer, and records a failure exactly when a configured provider answers with a non-2xx status |
| AiAnalysis.RateLimitedMessageClassified | lib/ai-analysis.ts:65-72 | the error thrown for a 429 is classified as a rate limit from its message alone |
| AiAnalysis.FirstSuccess | lib/ai-analysis.ts:511-530 | the position found is that of the first provider whose call succeeds, and the number of providers when none does |
| AiAnalysis.FirstWhere | lib/ai-analysis.ts:511-530 | the position found is the first from the start position whose element passes the test, and the length when none does |
| AiAnalysis.AnalyzeFile | lib/ai-analysis.ts:494-535 | the report, the providers called and the new failure table are those of the filter followed by the in-order attempts for the prompt built from the file |
| AiAnalysis.TryInOrder | lib/ai-analysis.ts:511-534 | the loop returns the report, the providers called and the failure table that the attempts function gives |
| AiAnalysis.NoProviderNoCall | lib/ai-analysis.ts:503-506 | with no available provider the fallback report comes back, nobody is called and the table is unchanged |
| AiAnalysis.FirstSuccessWins | lib/ai-analysis.ts:511-534 | the providers called are a prefix of the available ones and all but the last failed; when some provider succeeds the last one called gave the report returned; when all fail, all were called and the fallback report comes back |
| AiAnalysis.FailedAttemptsCount | lib/ai-analysis.ts:334-522 | with distinct names, a failed attempt raises the provider's count by two for a non-2xx response (recorded in the call and in the loop) and by one otherwise, and leaves other counts alone |
| AiAnalysis.DispatchFailureCounts | lib/ai-analysis.ts:511-534 | per request, a provider called that failed has its count raised by its weight; one that succeeded or was not called keeps its count |
| AiAnalysis.PrefixFailureCount | lib/ai-analysis.ts:511-530 | after the first k providers failed, a provider's count is raised by its weight when it is among them and is unchanged otherwise |
| AiAnalysis.CalledAndFailedBeforeFirstSuccess | lib/ai-analysis.ts:511-530 | a provider was called and failed exactly when it comes before the first provider that succeeds |
| AiAnalysis.AvailableProvidersDistinct | lib/ai-analysis.ts:476-501 | keys with distinct identifiers give available providers with distinct names |
| AiAnalysis.RateLimitedAttempt | lib/ai-analysis.ts:322-534 | a single provider answering 429 gives the fallback report and a count raised by two, stamped with the time of the attempt |
| AiAnalysis.RateLimitedRequest | lib/ai-analysis.ts:494-535 | a request served by one stored key that answers 429 gives the fallback report and raises that key's count by two |
| AiAnalysis.SingleKeyAvailable | lib/ai-analysis.ts:499-501 | a single stored key whose provider is available passes the filter alone |
| AiAnalysis.RateLimitedKeyScenario | lib/ai-analysis.ts:494-535 | with one key answering 429, two requests within a minute both get the fallback report and leave a count of 4, so the key is out of rotation for the next request within the minute |
| AiAnalysis.FallbackLists | lib/ai-analysis.ts:542-574 | the fallback lists hold two, two and one indicators, all "Natural" |
| AiAnalysis.FallbackIndicators | lib/ai-analysis.ts:541-574 | images get two indicators, videos four, audio one and other types none, all "Natural" |
| AiAnalysis.GetFallbackAnalysis | lib/ai-analysis.ts:538-585 | the fallback report has score 82, confidence "Medium", no factors, the fixed assessment, and the indicators of the file's media family |
| AiAnalysis.FallbackIsWellFormed | lib/ai-analysis.ts:538-585 | the fallback report passes the same field checks a model's reply must pass |
| AnalysisResults.ColorsFollowBand | components/analysis-results.tsx:80-96 | the score's text colour, ring colour and gradient are green for scores from 75, yellow from 40 and red below, all three together and in the same band the PDF report uses |
| AnalysisResults.ConfidenceBadgeColor | components/analysis-results.tsx:98-109 | "High", "Medium" and "Low" get the green, yellow and red badges, and the gray badge is given exactly to every other text |
| AnalysisResults.KeepNamed | components/analysis-results.tsx:111-120 | the filter keeps every indicator whose name is one of the names asked for, as many times as it occurs, and drops every other |
| AnalysisResults.KeepNamedInOrder | components/analysis-results.tsx:111-120 | the indicators kept are in their original order |
| AnalysisResults.SubsequenceOfItself | components/analysis-results.tsx:111-120 | an unfiltered list is kept in its order |
| AnalysisResults.GetRelevantIndicators | components/analysis-results.tsx:111-120 | an image keeps every "Visual Artifacts" and "Facial & Body Consistency" indicator and an audio file every "Audio Analysis" indicator, each as many times as it occurs, and nothing else; any other type keeps all of them; what is kept is always in the original order |
| AnalysisResults.VideoKeepsAll | components/analysis-results.tsx:114-115 | a video keeps every indicator |
| AnalysisResults.ShownIndicators | components/analysis-results.tsx:460 | at most six indicator cards are shown, the first six in order |
| AnalysisResults.GradientParts | components/analysis-results.tsx:134 | a gradient class "from-X to-Y" splits on the space into exactly two parts |
| AnalysisResults.GradientEndLost | components/analysis-results.tsx:133-138 | as written, a two-class gradient always gets the gray end stop, whatever its "to-" colour |
| AnalysisResults.GradientFixedStops | components/analysis-results.tsx:133-138 | reading the second part, "from-X to-Y" gives the stops X and Y |
| AnalysisResults.ScoreRingEndsGray | components/analysis-results.tsx:133-138 | as written, the score ring of every score ends in "stop-gray-600" |
| AnalysisResults.ScoreRingStops | components/analysis-results.tsx:133-138 | read from the second part, the ring keeps the start colour the page shows and ends in emerald-600, orange-500 or rose-600 by score band |
| AnalysisResults.FromFactors | components/analysis-results.tsx:141-149 | the analysis's own factors give one card each, in order, with the factor's title, description and confidence, positive exactly when the factor's confidence and the score are both at least 70 |
| AnalysisResults.FallbackReasons | components/analysis-results.tsx:151-262 | without factors there are five cards, all positive for scores from 75 and none positive below |
| AnalysisResults.GetTop5Reasons | components/analysis-results.tsx:140-265 | the analysis's factors are shown when it has any, else five cards by score band, positive exactly in the top band |
| AnalysisResults.FallbackMatchesReport | components/analysis-results.tsx:151-262 | without factors, the card shows the same five titles, descriptions and confidences as the PDF report for the same score |
| AnalysisResults.TechnicalShown | components/analysis-results.tsx:512 | the technical-analysis value is five below the score, but never below 0 |
| AnalysisResults.PatternShown | components/analysis-results.tsx:525 | the pattern-recognition value is three above the score, but never above 100 |
| AnalysisResults.BreakdownMatchesReport | components/analysis-results.tsx:512-525 | the two breakdown values are those the PDF report prints, and lie within 0 to 100 around the score when the score does |
| PdfGenerator.ScoreBand | lib/pdf-generator.ts:63-69 | a score is green from 75, yellow from 40 to 74 and red below 40, and in exactly one band |
| PdfGenerator.BandsAgree | lib/pdf-generator.ts:63-128 | the printed score's colour, the breakdown bars' colour and the risk text all follow the score's band, and different bands get different colours and different risk texts |
| PdfGenerator.BandMonotone | lib/pdf-generator.ts:63-69 | a higher score never lands in a worse band |
| PdfGenerator.Breakdown | lib/pdf-generator.ts:103-107 | there are three breakdown items, the last at the score; for a score within 0 to 100, every item lies within 0 to 100 and the first is at most the score and the second at least |
| PdfGenerator.BreakdownClose | lib/pdf-generator.ts:103-106 | technical analysis is at most five below the score and exactly five below from a score of 5; pattern recognition is at most three above and exactly three above up to a score of 97 |
| PdfGenerator.DisplayName | lib/pdf-generator.ts:43 | a name of at most 40 characters is printed as it is; a longer one as its first 40 characters followed by "..." |
| PdfGenerator.ShortId | lib/pdf-generator.ts:46 | the analysis id is printed as its last eight characters, or whole when shorter |
| PdfGenerator.StatusColor | lib/pdf-generator.ts:184 | a detail is printed green exactly when its status is "Natural", and red otherwise |
| PdfGenerator.BaseDetails | lib/pdf-generator.ts:236-253 | the fallback starts with "Metadata Analysis", natural exactly from 70, and "Compression Patterns", natural exactly from 60 |
| PdfGenerator.FamilyDetail | lib/pdf-generator.ts:255-282 | a third detail exists exactly for image, video and audio types: "Visual Artifacts" natural from 65, "Temporal Consistency" natural from 70, "Audio Spectral Analysis" natural from 65 |
| PdfGenerator.GetTechnicalDetails | lib/pdf-generator.ts:229-285 | the first four of the analysis's indicators when it has any; otherwise the two base details, plus one for an image, video or audio type |
| PdfGenerator.FamilyDetailThresholds | lib/pdf-generator.ts:255-282 | without indicators, the third detail is named by the type's family and is natural exactly from that family's threshold |
| PdfGenerator.FamilyDetailIsThird | lib/pdf-generator.ts:255-284 | without indicators, the family's detail is the third detail printed |
| PdfGenerator.FallbackColors | lib/pdf-generator.ts:184-253 | without indicators, the first detail is printed green exactly from a score of 70 and the second exactly from 60 |
| PdfGenerator.BaseDetailsOf | lib/pdf-generator.ts:236-284 | without indicators, the first two details printed are the base details |
| PdfGenerator.GetTop5Reasons | lib/pdf-generator.ts:287-375 | the report always prints five factors, each with a confidence within 65 to 95 |
| PdfGenerator.Top5FollowsBand | lib/pdf-generator.ts:287-375 | the factors printed are the fixed list of the score's band; two analyses with the same score print the same factors, whatever their own factors, and different bands print different lists |

## Left out

- Network, file and console I/O are left out: the `fetch` to Gemini, reading and writing the
  key file, and all logging. The upstream answer, the key file's content and whether its
  write succeeds are parameters. The environment is a parameter too, except in the admin
  route, where it is the `env` field of `KeysRoute` and POST's `process.env` writes are
  modelled.
- `callOpenAIAPI` and `callAnthropicAPI` in lib/ai-analysis.ts are not modelled, because
  `analyzeFile` never calls them.
- `getBase64AndMimeType` is not modelled, since base64 encoding is library behaviour. An
  inline request carries the raw bytes and the file's type.
- The request's `generationConfig` and the 60-second timer behind the abort signal are
  left out. Whether a request timed out is part of the upstream outcome (`TimedOut`), and
  its error becomes "<provider> request timed out" as in the source.
- Concurrency is left out. The failure table is shared across requests, and the analysis
  runs as a background promise. The model runs one request at a time, and all clock
  readings within one `analyzeFile` call share one `now`.
- The waits are left out: the delays in `performAnalysis` and in the client components'
  `simulateAnalysis` (`setTimeout`). So is the `setTimeout` file cleanup, which becomes an
  explicit expiry step at a given time.
- The `catch` in app/api/analyze/route.ts:72-75 is not modelled. `analyzeFile` never throws
  in the model, so the catch is unreachable.
- The progress endpoint (app/api/progress/[analysisId]/route.ts) is modelled only as the
  store that `updateProgress` writes. Its GET handler and `simulateAnalysisProgress` are not
  modelled.
- AdminKeys.KeysRoute.constructor: the module-load throw of `loadKeysFromStorage` (a
  production environment missing required variables) is excluded by its requires, since
  the source then fails to load the route at all.
- The admin route's module-load throw, the exported `logEnvironmentStatus` and the
  environment module's auto-validation at load are left out. They are logging and process
  start-up, not request logic.
- JSON typing is left out. A parsed reply is a record of optional fields, and its
  truthiness is tested as JavaScript would test it. Key ordering of integer-like property
  names in JavaScript objects is not modelled; stored keys keep insertion order.
- AiAnalysis.ParseAIResponse and AiAnalysis.AnalysisResult: scores and factor confidences
  are whole numbers; a fractional JSON number such as 74.5 is not modelled, nor is how the
  score thresholds (75 and 40) or the score ring treat one.
- UploadRoute.Post: a failure of `file.arrayBuffer()` is not modelled, since reading the
  body is I/O; the other routes to the catch (an unreadable form, a text field) are.
- Strings are sequences of characters. Lengths are not UTF-16 code units, and `toLowerCase`
  lowers ASCII letters only. The rate-limit patterns are ASCII, so the membership tests
  come out the same.
- The long prompt passages are kept as named parts; `PromptText` gives their exact
  wording.
- React rendering, the icons (`getFileTypeIcon`, `getCategoryIcon`), the random
  `getIndicatorScore` and the ring's `strokeDasharray` in components/analysis-results.tsx
  are not modelled. Neither are `getResultIcon`, `getResultText` and `getResultColor` in
  the client components.
- In components/file-upload.tsx, `handleAnalyze`, `resetUpload` and the drag-and-drop
  handlers are not modelled, since they are network and UI code. `formatFileSize`
  (floating point) is a parameter.
- `generateAnalysisReport` in lib/pdf-generator.ts is not modelled as drawing. Positions,
  page breaks, the date and the file name saved are left out. What each section prints is
  modelled by the functions it is written from.

## Findings

| source | as written | input that shows it | evidently intended | confidence | as-written member | corrected member |
|---|---|---|---|---|---|---|
| components/analysis-results.tsx:136 | `parseGradientColors` reads the end colour from `parts[2]`, but every gradient class has two space-separated parts, so the end stop is always the fallback "stop-gray-600" | the score 80, whose gradient is "from-green-500 to-emerald-600", gets the stops "stop-green-500" and "stop-gray-600" | read `parts[1]`, giving "stop-emerald-600" | high, not executed | AnalysisResults.ScoreRingEndsGray | AnalysisResults.ScoreRingStops |
