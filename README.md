# Conversation intent pipeline — a verified model

This project is a Dafny model of the data pipeline behind the Conv-tool wizard. The pipeline turns a
spreadsheet of customer-service chat rows into conversations, extracts one customer intent per
conversation with a language model, searches each intent in a knowledge base, and exports the
intents and search results as CSV. The modelled pieces are:

- the four server routes:
  - `process-data` assembles conversations from rows;
  - `extract-intents` handles one batch of at most 25 conversations;
  - `vector-search` searches a knowledge base and classifies the hits;
  - `download-results` writes the results as CSV or JSON;
- the client-side logic:
  - the batch loop of the intent-extraction step, with its pause, resume and key panel, and its
    intents CSV;
  - the direct-upload step, with its file guard, naive CSV reader, fuzzy column check and
    hand-off tallies;
  - the wizard page's step machine;
  - the credential form.

Every call the code makes to something outside it is an input of the model. These are:

- the language-model provider, the vector index and the internal route called by the client:
  - each reply is a datatype value;
  - a sequence of replies is a function from the batch or intent number to a reply;
- `JSON.parse` of the provider's cleaned text: a function parameter;
- the spreadsheet reader: its rows are given as values;
- the date parser, `toISOString` and the clock: the `Env` record of the `process-data` route;
- how JavaScript writes a number: a `real -> string` parameter.

Modules:

| module | file | models |
|---|---|---|
| `Common` | common.dfy | `Option`, `Min`, `ceil(n / size)` and the block count of a batched loop |
| `Js` | js.dfy | the JavaScript string operations the code relies on: `trim`, `toLowerCase` restricted to the letters A to Z, `includes`, `indexOf`, `split`, `join`, `replace` with a global pattern, `parseInt`, `String(n)` |
| `Csv` | csv.dfy | the CSV writer (plain and quoted cells), and a reader that follows RFC 4180 and is used to state round trips |
| `Domain` | domain.dfy | identifiers (`Num(int) \| Str(string)`), conversations and intent records shared by the stages |
| `ProcessData` | process_data.dfy | `app/api/process-data/route.ts` |
| `ExtractIntents` | extract_intents.dfy | `app/api/extract-intents/route.ts` |
| `IntentExtractionStep` | intent_extraction_step.dfy | `components/intent-extraction-step.tsx` |
| `VectorSearch` | vector_search.dfy | `app/api/vector-search/route.ts` |
| `DownloadResults` | download_results.dfy | `app/api/download-results/route.ts` |
| `DirectUpload` | direct_upload.dfy | `components/direct-upload-step.tsx` |
| `Wizard` | wizard.dfy | `app/page.tsx` and the start steps from `components/workflow-selection-step.tsx` |
| `ApiConfig` | api_config.dfy | `components/api-config-step.tsx` |

The form follows the code:

- Pure code is written as functions with lemmas about them.
- Loops are methods with invariants, proved equal to a specification function:
  - the grouping `forEach`;
  - the error-entry and matching `forEach` loops of the extraction route;
  - the client's batch loop;
  - the search loop over hits;
  - the row builder of the upload step.
- Components whose handlers update state are classes:
  - the extraction step;
  - the upload step;
  - the wizard;
  - the credential form.

Four representation choices:

- The wizard's fractional steps are doubled.
  - Step 3 is `6`.
  - The direct-upload view before step 3 is `5`.
  - The key `-0.5` is `-1`.
- A row object is a key order plus a map, so that `Object.keys` and overwriting a repeated header are modelled.
- Scores are `real`.
- Identifiers keep their JavaScript type: the number `1` and the string `"1"` are different.

Where the documented behaviour of the system and the code disagree, the model follows the code. The two exceptions are the defects listed under "## Findings": there the code as written is modelled beside a corrected definition, and the rest of the model uses the corrected one.

- **Resume replays from the start.** `resumeExtraction` calls the `startExtraction` of the render in which `paused` is still true. That run resets the progress and then runs no batch.
  - `IntentExtractionStep.ExtractionStep.Resume` and `IntentExtractionStep.PausedRunsNothing` state this.
  - The run does not continue from the saved offset.
- **A permission error does not stop the run that raised it.** The loop reads the `apiKeyError` of the render it started in, so a permission error degrades its batch and the loop goes on.
  - Only a run started after the key notice is set halts at its first failed batch.
  - `IntentExtractionStep.PermissionDoesNotStop` states this.
- **Pausing does not stop a run in flight.** `pauseExtraction` sets `paused` and clears `extracting`, but the loop of a run already started tests the `paused` of its own render, which is false.
  - That run goes on through every batch.
  - It then overwrites the progress, the tallies and the extracted data.
  - Its `finally` clears `extracting` again.
  - The model runs `StartExtraction` as one step, and `Extraction` takes the captured flag as a parameter, so a later `Pause` cannot reach a run.

## Model

| member | source | states |
|---|---|---|
| ProcessData.SerialTime | app/api/process-data/route.ts:38-41 | a numeric cell gives a valid instant exactly when `(v − 25569)·86400·1000` ms lies within the ECMAScript time range |
| ProcessData.Timestamp | app/api/process-data/route.ts:31-74 | a non-zero serial is `(v − 25569)·86400000` ms, a parsable text is its parsed instant, a Date is itself. The value falls back to the supplied "now" instead of failing when it is blank, zero, empty or unrecognised, a serial outside the Date range, an unparsable text, or an Invalid Date |
| ProcessData.RowId | app/api/process-data/route.ts:77 | a missing, `0` or `""` identifier becomes `"conv_" + index`; any other identifier is kept, with its type |
| ProcessData.NormalizeRows | app/api/process-data/route.ts:27-83 | one normalised row per sheet row, row `i` normalised with its own index |
| ProcessData.Sort | app/api/process-data/route.ts:86-94 | the sorted rows are a permutation of the input (same length, same multiset) |
| ProcessData.SortSorted | app/api/process-data/route.ts:86-94 | the result is ordered by numeric identifier key (number, else `parseInt`, NaN → 0), then by timestamp |
| ProcessData.SortStable | app/api/process-data/route.ts:86-94 | rows with equal key and timestamp keep their input order |
| ProcessData.SortIdempotent | app/api/process-data/route.ts:86-94 | rows already in comparator order are unchanged |
| ProcessData.Record | app/api/process-data/route.ts:99-123 | one `forEach` step through the `Map` (has/set/get) yields the groups of the reference grouping and keeps the index consistent with distinct identifiers |
| ProcessData.GroupRows | app/api/process-data/route.ts:97-123 | the loop's groups are the reference grouping of the sorted rows |
| ProcessData.AddRowDescribes | app/api/process-data/route.ts:99-123 | each step keeps the invariant: every group holds exactly the message rows of its identifier and the date of its first row, groups are in first-occurrence order, every identifier has one, and the message total is the number of message rows |
| ProcessData.GroupIdsAreRowIds | app/api/process-data/route.ts:97-109 | there is one group per distinct identifier, messages or not |
| ProcessData.EntriesOrdered | app/api/process-data/route.ts:86-123 | over sorted rows, the messages of one identifier are in non-decreasing timestamp order |
| ProcessData.EntriesNonEmpty | app/api/process-data/route.ts:114-122 | a row with both role and message gives its identifier at least one message |
| ProcessData.MessageRowsSort | app/api/process-data/route.ts:86-94 | sorting neither adds nor drops a message row |
| ProcessData.Assemble | app/api/process-data/route.ts:126-134 | filtering keeps at most one conversation per group |
| ProcessData.AssembleOrdered | app/api/process-data/route.ts:126-134 | conversations keep the first-occurrence order of their identifiers |
| ProcessData.AssembleKeeps | app/api/process-data/route.ts:127 | a group with at least one message becomes a conversation |
| ProcessData.AssembleTotal | app/api/process-data/route.ts:145 | `totalMessages` is the sum of the kept conversations' message counts, which equals that of all groups |
| ProcessData.ProcessUpload | app/api/process-data/route.ts:5-189 | the handler's pipeline (normalise, sort, group, assemble, summarise) yields the reference response |
| ProcessData.ResponseStatus | app/api/process-data/route.ts:10-187 | no file answers 400, an unreadable workbook 500 with the reader's message as details, a sheet 200 |
| ProcessData.SheetConversations | app/api/process-data/route.ts:99-134 | each conversation is its identifier's message rows as `Role: Message` lines joined by `\n`, with a matching non-zero `MessageCount`, in timestamp order, dated by the identifier's first sorted row even when that row has no message |
| ProcessData.SheetOrder | app/api/process-data/route.ts:86-134 | conversations have distinct identifiers and non-decreasing numeric keys |
| ProcessData.SheetCoverage | app/api/process-data/route.ts:113-127 | every row with a role and a message reaches a conversation |
| ProcessData.SheetCounts | app/api/process-data/route.ts:145-156 | `totalConversations` is the output length and at most `uniqueConvIds`, which counts every distinct identifier; `totalMessages` is the number of rows with role and message; the preview is the first 20 |
| ExtractIntents.KeyProblem | app/api/extract-intents/route.ts:57-77 | a key passes exactly when it is present, not `"demo-mode"` and starts with `"sk-"` |
| ExtractIntents.GuardsFirst | app/api/extract-intents/route.ts:11-77 | a missing or non-array batch, more than 25 conversations, or a bad key is rejected whatever the provider would answer |
| ExtractIntents.StripFences | app/api/extract-intents/route.ts:221-228 | stripping never lengthens the text and leaves text without a fence unchanged |
| ExtractIntents.CutBrackets | app/api/extract-intents/route.ts:231-236 | when a `[` precedes the last `]`, the result is the span from the first `[` to the last `]`, starting with `[` and ending with `]`; otherwise the text is unchanged |
| ExtractIntents.CleanBrackets | app/api/extract-intents/route.ts:221-236 | after de-fencing, the cleaner keeps exactly the bracketed span where it occurs, with no `]` after it |
| ExtractIntents.CleanNoSpan | app/api/extract-intents/route.ts:221-236 | without a bracket span the cleaner only strips fences |
| ExtractIntents.FencedJson | app/api/extract-intents/route.ts:224-225 | an answer fenced as a `json` block with no backquote inside is unwrapped to its body |
| ExtractIntents.FencedClean | app/api/extract-intents/route.ts:221-236 | such an answer is cleaned as its body would be |
| ExtractIntents.PermissionIff | app/api/extract-intents/route.ts:128-157 | a non-ok answer is a permission error exactly when its body parses as a JSON value other than `null`, its `error.message` is not a non-string value (whose `includes` throws), and either that message mentions "insufficient permissions" or "model.request" or the status is 401 |
| ExtractIntents.PermissionAnswer | app/api/extract-intents/route.ts:137-153 | a permission error answers 403 with no intents |
| ExtractIntents.ErrorEntriesEach | app/api/extract-intents/route.ts:162-170 | the error entries are one per batch conversation, in batch order, each with its identifier, date and preview |
| ExtractIntents.DegradeBatch | app/api/extract-intents/route.ts:162-170 | the `forEach` pushes those entries and counts one error per conversation |
| ExtractIntents.Find | app/api/extract-intents/route.ts:243 | a found conversation is in the batch with a strictly equal identifier; none is found exactly when no identifier is equal |
| ExtractIntents.FindFirst | app/api/extract-intents/route.ts:243 | the found conversation is the first with that identifier |
| ExtractIntents.StrictMatch | app/api/extract-intents/route.ts:243 | the number `n` and the string of its digits do not match |
| ExtractIntents.Match | app/api/extract-intents/route.ts:241-258 | successful plus unclear is the number of kept entries, at most the number of items |
| ExtractIntents.MatchItems | app/api/extract-intents/route.ts:241-258 | the loop over parsed items yields the reference matching, tallies included |
| ExtractIntents.MatchNoThrow | app/api/extract-intents/route.ts:242-258 | the loop throws only on a `null` element |
| ExtractIntents.MatchRecords | app/api/extract-intents/route.ts:242-251 | the entries are the records of the items whose identifier matches a batch conversation and whose intent is non-empty: one per such item, in the items' order, and no other |
| ExtractIntents.KeptDate | app/api/extract-intents/route.ts:243-251 | a kept entry takes the date of the first batch conversation with its identifier |
| ExtractIntents.MatchUnclear | app/api/extract-intents/route.ts:252-256 | the unclear tally counts the kept intents whose lower case mentions "unclear" or "unknown" |
| ExtractIntents.FailuresDegrade | app/api/extract-intents/route.ts:128-285 | on a non-permission error answer, a rejected fetch, no content, a parse failure or a non-array, every batch conversation gets exactly one `ERROR:` entry in order, errorCount is the batch size and the other tallies are 0 |
| ExtractIntents.Reconciles | app/api/extract-intents/route.ts:176-298 | every completed answer has totalProcessed = successful + unclear + errorCount |
| ExtractIntents.AnswerBatch | app/api/extract-intents/route.ts:86-300 | the handler after the guards, with its loops, yields the reference outcome |
| ExtractIntents.Guard | app/api/extract-intents/route.ts:6-77 | a request gets through the guards exactly when it parsed, carries at most 25 conversations, is not in demo mode, has a usable key and a `config` |
| ExtractIntents.CheckRequest | app/api/extract-intents/route.ts:6-77 | the guards, run in the handler's order, answer as `Guard` does |
| ExtractIntents.ExtractBatch | app/api/extract-intents/route.ts:6-312 | the whole handler yields the reference outcome |
| IntentExtractionStep.JudgeCases | components/intent-extraction-step.tsx:118-150 | a batch succeeds exactly when the reply is ok, says success and carries intents; the key notice is raised exactly when a failing reply is flagged as, or mentions, a permission error |
| IntentExtractionStep.NextPreview | components/intent-extraction-step.tsx:144-145 | the preview holds at most 5 intents: the last 2 shown before and the batch's last 3 |
| IntentExtractionStep.BatchAt | components/intent-extraction-step.tsx:100 | a batch is a non-empty slice of at most `batchSize` conversations |
| IntentExtractionStep.BatchNumberAtOffset | components/intent-extraction-step.tsx:96-97 | at offset `m·size` the batch number `floor(i / size) + 1` is `m + 1` |
| IntentExtractionStep.StepProgress | components/intent-extraction-step.tsx:151-184 | a batch never rewrites earlier results; it stops the run exactly when it fails after a key error was captured; otherwise `processedCount` becomes `min(i + size, n)` and a wait follows exactly when another batch does |
| IntentExtractionStep.StepSuccess | components/intent-extraction-step.tsx:134-147 | a successful batch appends the endpoint's intents in order and adds its three tallies |
| IntentExtractionStep.StepFailure | components/intent-extraction-step.tsx:161-170 | a failed batch appends one entry per batch conversation with the intent `ERROR: Batch k failed - …` and adds the batch size to the errors |
| IntentExtractionStep.FailedBatch | components/intent-extraction-step.tsx:161-177 | the same, stated on the offsets: the new entries stand for conversations `i` to `min(i + size, n)` |
| IntentExtractionStep.ExtractionLength | components/intent-extraction-step.tsx:87-185 | a run that is not stopped processes all `n` conversations, ends on batch `ceil(n / size)` (the `totalBatches` shown) and waits only between batches |
| IntentExtractionStep.ExtractionBalanced | components/intent-extraction-step.tsx:90-196 | a whole run reconciles when every reply does: results = successful + unclear + errors |
| IntentExtractionStep.EndpointRunBalanced | components/intent-extraction-step.tsx:90-196 | for any requests and provider answers, a run fed the extraction route's own outcomes has totals that reconcile |
| IntentExtractionStep.EndpointFailures | components/intent-extraction-step.tsx:120-131 | a route answer with `success: false`, a rejection or a 403 is a failed batch, and only the 403 raises the key notice |
| IntentExtractionStep.EveryBatchFails | components/intent-extraction-step.tsx:151-173 | when no reply is accepted and no key error was captured, the run writes one `ERROR:` entry per conversation, in order, all counted as errors |
| IntentExtractionStep.PausedRunsNothing | components/intent-extraction-step.tsx:96 | a run started from a paused render processes nothing and ends in the reset state |
| IntentExtractionStep.PermissionDoesNotStop | components/intent-extraction-step.tsx:155-170 | with no key error captured, a permission failure degrades its batch and the run goes on |
| IntentExtractionStep.ExtractionStep.constructor | components/intent-extraction-step.tsx:41-61 | the initial state: nothing extracted, batch size 10, the key from the page's configuration |
| IntentExtractionStep.ExtractionStep.StartExtraction | components/intent-extraction-step.tsx:73-206 | the step's new state is the reference run for the `paused` and `apiKeyError` it started with; the extracted data is set only when the run was neither paused nor stopped; `totalBatches` is `ceil(n / batchSize)` |
| IntentExtractionStep.ExtractionStep.Reset | components/intent-extraction-step.tsx:74-88 | progress, batch, count, preview, stats and errors are reset |
| IntentExtractionStep.ExtractionStep.RunBatches | components/intent-extraction-step.tsx:96-185 | the loop ends in the reference run's state; a stopped run is paused and no longer extracting |
| IntentExtractionStep.ExtractionStep.Advance | components/intent-extraction-step.tsx:96-185 | one pass of the loop either stops in the final state or leaves the rest of the run to reach it |
| IntentExtractionStep.ExtractionStep.DegradeFailedBatch | components/intent-extraction-step.tsx:151-179 | the catch of a failed batch: notice noted, error entries appended, progress moved on |
| IntentExtractionStep.ExtractionStep.HaltBatch | components/intent-extraction-step.tsx:154-159 | with a captured key error the step pauses and leaves the loop, results untouched |
| IntentExtractionStep.ExtractionStep.Pause | components/intent-extraction-step.tsx:208-212 | pausing sets `paused`, clears `extracting` and changes nothing else; it does not reach a run in flight |
| IntentExtractionStep.ExtractionStep.Resume | components/intent-extraction-step.tsx:214-217 | resuming resets the progress, runs no batch, keeps the earlier extracted data and stays extracting |
| IntentExtractionStep.ExtractionStep.UpdateApiKey | components/intent-extraction-step.tsx:219-227 | the key is handed on exactly when it is non-empty and starts with `sk-`, which clears the notice and closes the panel; otherwise the format error is shown |
| IntentExtractionStep.Status | components/intent-extraction-step.tsx:237-241 | Error exactly for an `ERROR:` intent, Unclear exactly for another intent whose lower case contains "unclear", Success otherwise |
| IntentExtractionStep.StatusWithinUnclear | components/intent-extraction-step.tsx:239 | an intent the CSV marks Unclear is also counted unclear by the extraction route |
| IntentExtractionStep.IntentsCsv | components/intent-extraction-step.tsx:229-252 | there is a CSV exactly when there is extracted data |
| IntentExtractionStep.IntentsCsvRoundTrip | components/intent-extraction-step.tsx:233-252 | reading the intents CSV back by RFC 4180 gives the header and, per intent in order, its identifier, date, intent text with quotes restored, and status |
| VectorSearch.SettingsDefaults | app/api/vector-search/route.ts:54-58 | the threshold defaults to 0.8 and `topK` to 3; the namespace is the trimmed value or `__default__`, sent to the legacy endpoint as `""` |
| VectorSearch.Search | app/api/vector-search/route.ts:8-240 | the handler yields the reference response in the corrected counter order of the first finding, in which review items equal low-confidence matches and high + low is at least the number of intents |
| VectorSearch.SearchIntent | app/api/vector-search/route.ts:77-226 | one pass of the loop yields the reference accumulators for that intent |
| VectorSearch.ScanHits | app/api/vector-search/route.ts:180-201 | the loop over hits yields the reference scan and stops at the first hit that throws |
| VectorSearch.ScanStops | app/api/vector-search/route.ts:187-197 | once a hit has thrown, later hits are not looked at |
| VectorSearch.SkipRule | app/api/vector-search/route.ts:81-91 | a skipped intent yields one "Skipped" item scored 0 and one more low-confidence match |
| VectorSearch.SkippedCases | app/api/vector-search/route.ts:78-81 | an intent is skipped exactly when its trimmed text is empty, starts with "unclear" in any case, or starts with "ERROR:" |
| VectorSearch.PrimaryDecides | app/api/vector-search/route.ts:129-154 | the legacy endpoint is consulted only when the primary one answers not-ok |
| VectorSearch.BothFail | app/api/vector-search/route.ts:156-226 | when both endpoints answer not-ok, one error item (Score and Category `null`, `[ERROR] …` chunk) is recorded and the loop goes on |
| VectorSearch.Normalisation | app/api/vector-search/route.ts:178-185 | a primary score of 0 falls through to `score`; `result.hits` wins even when empty, else `matches`, else none |
| VectorSearch.LowItemFields | app/api/vector-search/route.ts:190-197 | a low item carries the request's identifier and intent, the hit's id and score, the non-empty title or "Unknown Category", and a prefix of at most 400 characters of the first non-empty of `article` and `text` |
| VectorSearch.Threshold | app/api/vector-search/route.ts:187-200 | a score below the threshold appends exactly the review item built from the hit and counts one low match; a score at or above only counts high |
| VectorSearch.UnscoredIsHigh | app/api/vector-search/route.ts:183-199 | a hit with no score is never below the threshold and counts high |
| VectorSearch.NoMatch | app/api/vector-search/route.ts:204-214 | a search with no hits yields one "No Match Found" item scored 0 |
| VectorSearch.ProcessAppends | app/api/vector-search/route.ts:76-226 | a pass only appends, and only items about its own intent |
| VectorSearch.ReviewItemsMatchLow | app/api/vector-search/route.ts:72-226 | after every intent, the review items are exactly as many as the low-confidence matches |
| VectorSearch.ProcessBalanced | app/api/vector-search/route.ts:76-226 | one pass keeps that equality |
| VectorSearch.ScanBalanced | app/api/vector-search/route.ts:181-201 | over the hits, every low-confidence increment comes with one item |
| VectorSearch.ScanCounts | app/api/vector-search/route.ts:181-201 | unless a hit threw, every hit is counted once, high or low |
| VectorSearch.ProcessCounts | app/api/vector-search/route.ts:76-226 | every intent adds at least one to high + low |
| VectorSearch.EveryIntentCounted | app/api/vector-search/route.ts:76-235 | at the end high + low is at least `totalSearched` |
| VectorSearch.NullScoreMiscounts | app/api/vector-search/route.ts:187-197 | as written, a `null` score gives one item but two low-confidence matches |
| VectorSearch.AsWrittenAgrees | app/api/vector-search/route.ts:187-197 | the written and the corrected order of counting and pushing agree on every hit list without a `null` score |
| DownloadResults.FormatChoice | app/api/download-results/route.ts:10-41 | a format other than "csv" returns the results as JSON; a CSV request fails with 500 exactly when the results have no review items |
| DownloadResults.HeaderFirst | app/api/download-results/route.ts:12-22 | the first line is the header line; with no items it is the whole file, otherwise a newline follows it |
| DownloadResults.HeaderNames | app/api/download-results/route.ts:12 | the header's cells are `ConvID,Intent,ResultID,Score,Category,ArticleChunk` |
| DownloadResults.ItemRows | app/api/download-results/route.ts:13-20 | one row per review item, in order |
| DownloadResults.FalsyFields | app/api/download-results/route.ts:16-18 | a missing or empty ResultID and a falsy Score (missing, `null`, 0) are written empty; a `null` Category is written as `""` |
| DownloadResults.CsvRoundTrip | app/api/download-results/route.ts:12-22 | reading the CSV back by RFC 4180 gives the six column names, then each item's six values in order, quoted fields included whatever quotes, commas or newlines they hold |
| DownloadResults.ItemsOf | app/api/download-results/route.ts:13 | review items are present exactly when the search answered results |
| Csv.QuoteRoundTrip | app/api/download-results/route.ts:15 | a field wrapped in quotes with inner quotes doubled reads back as the original text |
| Csv.TableRoundTrip | app/api/download-results/route.ts:22 | a table of safe rows joined by `,` and `\n` reads back row by row |
| DirectUpload.GuardError | components/direct-upload-step.tsx:86-106 | a file passes exactly when its MIME type is listed or its name ends in ".csv", and its size is at most 50·1024·1024; the type message takes precedence over the size message |
| DirectUpload.NonBlankCounts | components/direct-upload-step.tsx:116 | a non-blank line is kept as often as it occurs, a blank one never |
| DirectUpload.NonBlankSplits | components/direct-upload-step.tsx:116 | the lines kept from two runs of lines are those of the first followed by those of the second |
| DirectUpload.NonBlankLine | components/direct-upload-step.tsx:116 | a single line is kept exactly when it is not blank |
| DirectUpload.NonBlank | components/direct-upload-step.tsx:116 | every kept line has non-empty trimmed text, and every such line is kept |
| DirectUpload.Fields | components/direct-upload-step.tsx:121-123 | a line gives one field per comma plus one, none holding a quote |
| DirectUpload.BuildRow | components/direct-upload-step.tsx:124-127 | the `forEach` over the headers builds the reference row |
| DirectUpload.RowWellFormed | components/direct-upload-step.tsx:124-127 | the row has each header once as a key, and exactly the headers |
| DirectUpload.RowLastWins | components/direct-upload-step.tsx:126 | a repeated header takes the value of its last column; a missing value is `""` |
| DirectUpload.RowKeysInOrder | components/direct-upload-step.tsx:124-127 | with distinct headers the keys are the headers in order |
| DirectUpload.CsvRows | components/direct-upload-step.tsx:122-129 | one row per data line |
| DirectUpload.CsvRowAt | components/direct-upload-step.tsx:122-129 | row `k` is built from line `k` under the headers |
| DirectUpload.BuildRows | components/direct-upload-step.tsx:122-129 | the loop builds the reference rows |
| DirectUpload.ReadRows | components/direct-upload-step.tsx:113-138 | a ".csv" name is read as CSV, anything else as a workbook |
| DirectUpload.CsvShape | components/direct-upload-step.tsx:116-129 | a CSV fails exactly with fewer than two non-blank lines; otherwise there is one row per later line |
| DirectUpload.CsvKeys | components/direct-upload-step.tsx:121-127 | every CSV row's keys are the cleaned header names |
| DirectUpload.Missing | components/direct-upload-step.tsx:145-152 | a column is missing exactly when it is expected and no file column matches it by containment in lower case |
| DirectUpload.ValidateIff | components/direct-upload-step.tsx:140-166 | validation passes exactly when there are rows and every expected column is matched by a key of the first row, and then keeps the rows, their count, the keys and the first three rows; an empty file and a missing column give their own messages |
| DirectUpload.BlankColumnMatchesAll | components/direct-upload-step.tsx:150 | a blank column name matches every expected column |
| DirectUpload.CaseIgnored | components/direct-upload-step.tsx:150 | for any two names, matching gives the same answer after both are lower-cased |
| DirectUpload.IntentTallies | components/direct-upload-step.tsx:199-206 | successful + errors is the number of rows with an intent; unclear is at most that |
| DirectUpload.UnclearIsSuccessful | components/direct-upload-step.tsx:199-204 | an unclear intent also counts as successful |
| DirectUpload.LowerCaseIntentUncounted | components/direct-upload-step.tsx:145-206 | a lower-case `intent` column passes the column check but its rows count as having no intent |
| DirectUpload.MessagesAreLines | components/direct-upload-step.tsx:188-191 | `totalMessages` is the number of lines of the non-empty conversations |
| DirectUpload.DirectUploadStep.constructor | components/direct-upload-step.tsx:49-53 | no file, no error, not processing, no validation |
| DirectUpload.DirectUploadStep.Choose | components/direct-upload-step.tsx:67-106 | the error is cleared; a rejected file shows its message and keeps the earlier file and validation; an accepted one is set and validated |
| DirectUpload.DirectUploadStep.ValidateFileFormat | components/direct-upload-step.tsx:108-173 | the validation result is the check's verdict; a failure shows its message and clears the result |
| DirectUpload.DirectUploadStep.Next | components/direct-upload-step.tsx:175-212 | there is a hand-off exactly when validation passed: the file for step 1, the rows with their count and line total for step 3; for step 4 the rows, their count, and the successful, unclear and error tallies, each equal to its filter count, with successful + errors equal to the rows that have an intent |
| Wizard.Choice | components/workflow-selection-step.tsx:48-60 | the complete workflow starts at step 1, the direct one at the chosen step in {1, 3, 4} |
| Wizard.Wizard.constructor | app/page.tsx:25-29 | step 0, no data, complete mode, start step 1, empty configuration |
| Wizard.Wizard.CompleteStep | app/page.tsx:31-58 | the data is recorded under its step and nothing else changes there; its configuration is merged with new keys winning; step 0 sets the mode and start and goes to step 1 or to the direct-upload view; the upload goes to the start step; any other step goes one on and step 5 stays |
| Wizard.Wizard.Back | app/page.tsx:60-67 | from the start step of a direct workflow back to its upload view, otherwise one step back, never below 0 |
| Wizard.Wizard.View | app/page.tsx:69-125 | the direct-upload view is shown exactly at half a step before the start step in direct mode; otherwise the view of the current step |
| Wizard.Wizard.LeaveDirectUpload | app/page.tsx:76 | the upload view's back action returns to the workflow choice |
| Wizard.Wizard.UpdateApiConfig | app/page.tsx:108 | new keys override, other keys stay |
| Wizard.Wizard.ResultsInput | app/page.tsx:122 | the results view shows what the search step recorded, with no fallback |
| Wizard.Indicators | app/page.tsx:164-166 | completed and active exclude each other and imply accessible; in complete mode accessible means reached; in direct mode every step from the start is accessible |
| Wizard.UploadFeedsStart | app/page.tsx:104 | with the corrected input rule the direct upload's data reaches the start step |
| Wizard.StaleInput | app/page.tsx:104 | as written, after a complete run back to the workflow choice and a direct upload for step 3, the extraction step is given the old processed data |
| ApiConfig.ConfigForm.constructor | components/api-config-step.tsx:16-21 | empty fields and no errors |
| ApiConfig.ConfigForm.Enter | components/api-config-step.tsx:16-21 | the fields take the typed values |
| ApiConfig.ConfigForm.ValidateConfig | components/api-config-step.tsx:23-44 | the error map is replaced; it has an OpenAI entry exactly when the key lacks `sk-` ("required" if empty, else the prefix message), a Pinecone entry exactly when its key is empty, and a host entry exactly when the host lacks `https://` ("required" if empty, else the HTTPS message); the result is true exactly when the map is empty |
| ApiConfig.ConfigForm.Continue | components/api-config-step.tsx:46-54 | the three values are emitted exactly when they pass validation |
| ApiConfig.Skip | components/api-config-step.tsx:56-63 | every field is `"demo-mode"` and demo mode is on |
| ApiConfig.SkipWouldFail | components/api-config-step.tsx:56-63 | what skipping emits would not pass the form's own rules |

## Left out

- Demo mode is not modelled beyond its branch in either route, because its results are drawn with `Math.random`.
  - The extraction route's canned intents take the random pick as a parameter.
  - The search route's demo answer is only a constructor.
- Network calls, `JSON.parse`, the spreadsheet reader, the date parser, `toISOString` and the clock are inputs, as described above. The hard-coded index host and the zero vector of the legacy query are not modelled.
- Excel serial dates and date strings are not converted to calendar dates. The calendar date of a row comes from the supplied `isoDate`, and `dateRange` is not modelled.
- `avgMessagesPerConv` (`toFixed(1)`), the score rounding `Number(score.toFixed(4))`, progress percentages and the status messages are not modelled.
  - A review item keeps the unrounded score.
  - The thrown `TypeError` of a `null` score is kept.
- `setTimeout` delays and the 100 ms sleep of the search loop are not modelled. The extraction loop counts its waits instead.
- Logging, rendering, drag state, the blob download of the intents CSV and `getCurrentStepInfo` are not modelled.
- The key panel's automatic opening when the page has no usable key is not modelled, because it is a render effect.
- The extraction step's `handleNext` only passes `extractedData` on and is not modelled.
- `JSON.stringify` of the results and the request bodies is not modelled.
- `Object.keys` lists integer-like keys first in JavaScript. The model keeps insertion order for every key.
- A spreadsheet cell that is not a string (a number in a Role, Message or Intent column) is not modelled. Role and Message are given as text, and uploaded rows hold strings.
- Provider items whose `Intent` is a truthy non-string are not modelled. For these the route pushes the entry and then throws on `toLowerCase`.
- Js.Lower: lower-cases only the letters A to Z. JavaScript's `toLowerCase` folds all of Unicode, so an intent such as "UN\u212ANOWN" (with the Kelvin sign) counts as unclear in the route but not in the model. Full Unicode case mapping is left out as a table the model does not carry.
- Domain.Preview and Js.Take: count characters. `substring(0, 100)` and `slice(0, 400)` count UTF-16 code units, so a preview with a character outside the Basic Multilingual Plane before position 100 is longer in the model than in the route. Strings are sequences of characters in this model, not of code units.
- VectorSearch.Search: an intent item whose `Intent` is not a string is not modelled. Its `trim()` runs outside the per-intent `try`, so the route answers 500 with `error`, `details` and `timestamp` for the whole request. `IntentInput.intent` is a string, and the model has no such outcome. A step-4 upload with a lower-case `intent` column can send such items.
- VectorSearch.Search: follows the corrected counter order of the first finding. On a hit whose score is `null`, the code as written reports one more low-confidence match than the model does; `VectorSearch.NullScoreMiscounts` exhibits that case.
- A download request whose review item lacks `Intent` throws on `replace`. This case is not modelled: `ReviewItem.intent` is a string.
- The "Failed to validate file format" fallback for a thrown value that is not an `Error` is not modelled. Every failure carries its message.
- ApiConfig.ConfigForm.Continue: the emitted value has `demoMode` false where the source leaves the key out of the object.
- The start steps of the workflow choice are taken as the values {1, 3, 4} its buttons produce. The rest of its component is display.
- The other client components are display and fetch wrappers and are not part of this model:
  - `components/file-upload-step.tsx`;
  - `components/data-processing-step.tsx`;
  - `components/vector-search-step.tsx`;
  - `components/results-step.tsx`;
  - `app/layout.tsx`.

## Findings

| source | as written | input that shows it | evidently intended | confidence | as-written member | corrected member |
|---|---|---|---|---|---|---|
| app/api/vector-search/route.ts:187-197 | `lowConfidenceMatches++` runs before `score.toFixed(4)`. That call throws on a `null` score, and the `catch` increments the counter again. | one intent whose single hit has `_score: null` and `score: null` gives one review item but `lowConfidenceMatches == 2` | every low-confidence increment is paired with exactly one review item | not executed | VectorSearch.NullScoreMiscounts | VectorSearch.ReviewItemsMatchLow |
| app/page.tsx:104 | each step's input is `stepData[previous step] \|\| stepData[-0.5]`. Output left over from an earlier pass through the workflow wins over the direct upload. | complete workflow through step 2, back to step 0, then a direct upload of conversations for step 3: the extraction step gets the old step-2 output | the step a direct upload starts receives the uploaded data | not executed | Wizard.StaleInput | Wizard.UploadFeedsStart |
