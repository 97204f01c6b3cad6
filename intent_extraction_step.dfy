/**
 * The client step that drives extraction: it cuts the conversations into contiguous batches,
 * posts each to the intent endpoint (an oracle here), and accumulates intents and tallies, turning
 * every failed batch into `ERROR:` entries. The values `paused` and `apiKeyError` that the run
 * consults are those of the render whose button started it, so they are fixed for a whole run.
 */
module IntentExtractionStep {
  import opened Common
  import opened Js
  import opened Domain
  import opened Csv
  import ExtractIntents

  /** The batch sizes the form offers. */
  predicate IsBatchSize(n: nat) {
    n == 5 || n == 10 || n == 15 || n == 20
  }

  // ---------------------------------------------------------------- what the endpoint answers

  /**
   * `response.json()` of a reply: unreadable (the promise rejects with a message), or an object
   * with the fields the loop reads. `error` is `""` when absent, `success` and `permissionError`
   * are their truthiness, and `result` is `None` when it has no `intents` array; missing tallies are 0.
   */
  datatype Body =
    | Unreadable(message: string)
    | Body(success: bool, error: string, permissionError: bool, result: Option<ExtractIntents.BatchResult>)

  /** One `fetch` of the endpoint: it rejects, or it answers with its `ok`, `statusText` and body. */
  datatype Reply = FetchFailed(message: string) | Answered(ok: bool, statusText: string, body: Body)

  /** How the loop treats a reply: its result, or the message of the error it throws (and, for a permission error, the notice it shows). */
  datatype Verdict = Succeeded(result: ExtractIntents.BatchResult) | Failed(message: string, notice: Option<string>)

  const PermissionNotice: string :=
    "Your OpenAI API key doesn't have the necessary permissions to use this model. Please update your API key or try a different model."

  /** The `try` block of one batch, for batch number `k`. */
  function Judge(k: nat, reply: Reply): Verdict {
    match reply
    case FetchFailed(m) => Failed(m, None)
    case Answered(_, _, Unreadable(m)) => Failed(m, None)
    case Answered(ok, statusText, Body(success, error, permissionError, result)) =>
      if !ok || !success then
        if permissionError || Contains(error, "permission") then
          Failed(if error != "" then error else "API key permission error",
                 Some(if error != "" then error else PermissionNotice))
        else Failed(if error != "" then error else "Batch " + NatToString(k) + " failed: " + statusText, None)
      else if result.Some? then Succeeded(result.value)
      else Failed(if error != "" then error else "Batch " + NatToString(k) + " returned no results", None)
  }

  /** An answer the loop takes as a successful batch. */
  predicate Accepted(reply: Reply) {
    reply.Answered? && reply.ok && reply.body.Body? && reply.body.success && reply.body.result.Some?
  }

  /**
   * A batch succeeds iff the reply is ok, says `success` and carries intents; the key notice is
   * raised iff a not-ok or unsuccessful reply is flagged as, or mentions, a permission error.
   */
  lemma JudgeCases(k: nat, reply: Reply)
    ensures Judge(k, reply).Succeeded? <==> Accepted(reply)
    ensures Judge(k, reply).Succeeded? ==> Judge(k, reply).result == reply.body.result.value
    ensures (Judge(k, reply).Failed? && Judge(k, reply).notice.Some?) <==>
      (reply.Answered? && reply.body.Body? && (!reply.ok || !reply.body.success)
       && (reply.body.permissionError || Contains(reply.body.error, "permission")))
  {
  }

  /** The intent written for every conversation of failed batch `k`. */
  function BatchFailedIntent(k: nat, message: string): string {
    "ERROR: Batch " + NatToString(k) + " failed - " + message
  }

  // ---------------------------------------------------------------- a run

  /**
   * The values a run accumulates: its results and tallies (locals of the loop), the progress it
   * reports, the preview, the key error and key panel it may set, whether it stopped early, and
   * how many times it waited between batches.
   */
  datatype Run = Run(results: seq<IntentRecord>, successful: nat, unclear: nat, errors: nat,
                     processed: nat, batch: nat, preview: seq<IntentRecord>,
                     keyError: string, keyPanel: bool, stopped: bool, delays: nat)

  /** What `startExtraction` resets, with the key panel as it was. */
  function Initial(keyPanel: bool): Run {
    Run([], 0, 0, 0, 0, 0, [], "", keyPanel, false, 0)
  }

  /** `[...prev.slice(-2), ...latest.slice(-3)].slice(-5)`. */
  function NextPreview(prev: seq<IntentRecord>, intents: seq<IntentRecord>): (r: seq<IntentRecord>)
    ensures |r| <= 5
    ensures r == Last(prev, 2) + Last(intents, 3)
  {
    Last(Last(prev, 2) + Last(intents, 3), 5)
  }

  /** The batch at offset `i`. */
  function BatchAt(convs: seq<Conversation>, size: nat, i: nat): (b: seq<Conversation>)
    requires i < |convs|
    ensures 0 < |b| <= size || (size == 0 && b == [])
  {
    convs[i..Min(i + size, |convs|)]
  }

  /** The verdict on the reply to each batch number. */
  function Verdicts(replies: nat -> Reply): nat -> Verdict {
    (k: nat) => Judge(k, replies(k))
  }

  /**
   * One pass of the loop body for batch number `k` at offset `i`, once the reply has been judged. A failed batch stops
   * the run when the captured key error is set; otherwise it appends one error entry per
   * conversation of the batch.
   */
  function Step(run: Run, convs: seq<Conversation>, size: nat, i: nat, k: nat, v: Verdict, keyError: string): Run
    requires 0 < size && i < |convs|
  {
    var n := |convs|;
    var next := Min(i + size, n);
    var waited := run.delays + (if i + size < n then 1 else 0);
    match v
    case Succeeded(res) =>
      run.(results := run.results + res.intents, successful := run.successful + res.successful,
           unclear := run.unclear + res.unclear, errors := run.errors + res.errors,
           processed := next, batch := k, preview := NextPreview(run.preview, res.intents), delays := waited)
    case Failed(message, notice) =>
      var noted := if notice.Some? then run.(batch := k, keyError := notice.value, keyPanel := true) else run.(batch := k);
      if keyError != "" then noted.(stopped := true)
      else
        var batch := BatchAt(convs, size, i);
        noted.(results := run.results + ExtractIntents.ErrorEntries(batch, BatchFailedIntent(k, message)),
               errors := run.errors + |batch|, processed := next, delays := waited)
  }

  /**
   * The loop from offset `i` on, `k` being the number of the batch at that offset and
   * `verdicts(k)` judging the reply to batch `k`.
   */
  function RunFrom(convs: seq<Conversation>, size: nat, verdicts: nat -> Verdict, keyError: string, i: nat, k: nat, run: Run): Run
    requires size > 0
    decreases |convs| - i
  {
    if i >= |convs| || run.stopped then run
    else RunFrom(convs, size, verdicts, keyError, i + size, k + 1, Step(run, convs, size, i, k, verdicts(k), keyError))
  }

  lemma RunFromUnrolls(convs: seq<Conversation>, size: nat, verdicts: nat -> Verdict, keyError: string, i: nat, k: nat, run: Run)
    requires size > 0 && i < |convs| && !run.stopped
    ensures RunFrom(convs, size, verdicts, keyError, i, k, run)
         == RunFrom(convs, size, verdicts, keyError, i + size, k + 1, Step(run, convs, size, i, k, verdicts(k), keyError))
  {
  }

  /** One pass of the loop: the run goes on from the next batch, or it is over when the pass stopped it. */
  lemma RunFromAdvances(convs: seq<Conversation>, size: nat, verdicts: nat -> Verdict, keyError: string, i: nat, k: nat, run: Run, final: Run)
    requires size > 0 && i < |convs| && !run.stopped
    requires RunFrom(convs, size, verdicts, keyError, i, k, run) == final
    ensures var next := Step(run, convs, size, i, k, verdicts(k), keyError);
      && (next.stopped ==> next == final)
      && RunFrom(convs, size, verdicts, keyError, i + size, k + 1, next) == final
  {
    var next := Step(run, convs, size, i, k, verdicts(k), keyError);
    RunFromUnrolls(convs, size, verdicts, keyError, i, k, run);
    if next.stopped {
      RunFromEnds(convs, size, verdicts, keyError, i + size, k + 1, next);
    }
  }

  lemma RunFromEnds(convs: seq<Conversation>, size: nat, verdicts: nat -> Verdict, keyError: string, i: nat, k: nat, run: Run)
    requires size > 0 && (i >= |convs| || run.stopped)
    ensures RunFrom(convs, size, verdicts, keyError, i, k, run) == run
  {
  }

  /**
   * One batch never rewrites earlier results; it stops the run iff it fails while a key error was
   * captured; otherwise progress moves to `min(i + size, n)` and a wait follows iff a batch does.
   */
  lemma StepProgress(run: Run, convs: seq<Conversation>, size: nat, i: nat, k: nat, v: Verdict, keyError: string)
    requires 0 < size && i < |convs| && !run.stopped
    ensures var r := Step(run, convs, size, i, k, v, keyError);
      && run.results <= r.results && r.batch == k
      && (r.stopped <==> v.Failed? && keyError != "")
      && (r.stopped ==> r.results == run.results && r.processed == run.processed && r.delays == run.delays)
      && (!r.stopped ==> r.processed == Min(i + size, |convs|) && i < r.processed <= |convs|)
      && (!r.stopped ==> r.delays == run.delays + (if i + size < |convs| then 1 else 0))
  {
  }

  /**
   * A failed batch, with no key error captured, appends exactly one `ERROR: Batch k failed - …`
   * entry per conversation of the batch, in order, and adds the batch size to the errors.
   */
  lemma StepFailure(run: Run, convs: seq<Conversation>, size: nat, i: nat, k: nat, v: Verdict)
    requires 0 < size && i < |convs| && !run.stopped && v.Failed?
    ensures var r, b := Step(run, convs, size, i, k, v, ""), BatchAt(convs, size, i);
      && |r.results| == |run.results| + |b| && r.errors == run.errors + |b|
      && r.successful == run.successful && r.unclear == run.unclear && !r.stopped
      && forall j :: 0 <= j < |b| ==>
           r.results[|run.results| + j] == ExtractIntents.RecordFor(b[j], BatchFailedIntent(k, v.message))
  {
    ExtractIntents.ErrorEntriesEach(BatchAt(convs, size, i), BatchFailedIntent(k, v.message));
  }

  /** The failure above, stated on the batch's offsets. */
  lemma FailedBatch(run: Run, convs: seq<Conversation>, size: nat, i: nat, k: nat, v: Verdict)
    requires 0 < size && i < |convs| && !run.stopped && v.Failed?
    ensures var r, e := Step(run, convs, size, i, k, v, ""), Min(i + size, |convs|);
      && !r.stopped && r.processed == e
      && |r.results| == |run.results| + (e - i) && r.errors == run.errors + (e - i)
      && r.successful == run.successful && r.unclear == run.unclear
      && r.results[..|run.results|] == run.results
      && forall j :: i <= j < e ==>
           r.results[|run.results| + j - i].convId == convs[j].convId && IsErrorIntent(r.results[|run.results| + j - i].intent)
  {
    StepFailure(run, convs, size, i, k, v);
    StepProgress(run, convs, size, i, k, v, "");
    BatchFailedIsError(k, v.message);
    var r, b := Step(run, convs, size, i, k, v, ""), BatchAt(convs, size, i);
    forall j | i <= j < Min(i + size, |convs|)
      ensures r.results[|run.results| + j - i].convId == convs[j].convId && IsErrorIntent(r.results[|run.results| + j - i].intent)
    {
      assert b[j - i] == convs[j];
      assert r.results[|run.results| + (j - i)] == ExtractIntents.RecordFor(b[j - i], BatchFailedIntent(k, v.message));
    }
    assert !r.stopped && r.processed == Min(i + size, |convs|);
    assert |r.results| == |run.results| + (Min(i + size, |convs|) - i);
    assert r.errors == run.errors + (Min(i + size, |convs|) - i);
    assert r.successful == run.successful && r.unclear == run.unclear;
    assert r.results[..|run.results|] == run.results;
  }

  /** A successful batch appends the endpoint's intents in order and adds its three tallies. */
  lemma StepSuccess(run: Run, convs: seq<Conversation>, size: nat, i: nat, k: nat, v: Verdict, keyError: string)
    requires 0 < size && i < |convs| && !run.stopped && v.Succeeded?
    ensures var r := Step(run, convs, size, i, k, v, keyError);
      && r.results == run.results + v.result.intents && !r.stopped
      && r.successful == run.successful + v.result.successful && r.unclear == run.unclear + v.result.unclear
      && r.errors == run.errors + v.result.errors && |r.preview| <= 5
  {
  }

  /** The three shapes of a step, one per branch of the loop body. */
  lemma StepAccepts(run: Run, convs: seq<Conversation>, size: nat, i: nat, k: nat, v: Verdict, keyError: string)
    requires 0 < size && i < |convs| && v.Succeeded?
    ensures Step(run, convs, size, i, k, v, keyError)
      == Run(run.results + v.result.intents, run.successful + v.result.successful, run.unclear + v.result.unclear,
             run.errors + v.result.errors, Min(i + size, |convs|), k, NextPreview(run.preview, v.result.intents),
             run.keyError, run.keyPanel, run.stopped, if i + size < |convs| then run.delays + 1 else run.delays)
  {
  }

  lemma StepHalts(run: Run, convs: seq<Conversation>, size: nat, i: nat, k: nat, v: Verdict, keyError: string)
    requires 0 < size && i < |convs| && v.Failed? && keyError != ""
    ensures Step(run, convs, size, i, k, v, keyError)
      == Run(run.results, run.successful, run.unclear, run.errors, run.processed, k, run.preview,
             if v.notice.Some? then v.notice.value else run.keyError, v.notice.Some? || run.keyPanel, true, run.delays)
  {
  }

  lemma StepDegrades(run: Run, convs: seq<Conversation>, size: nat, i: nat, k: nat, v: Verdict)
    requires 0 < size && i < |convs| && v.Failed?
    ensures var b := BatchAt(convs, size, i);
      Step(run, convs, size, i, k, v, "")
      == Run(run.results + ExtractIntents.ErrorEntries(b, BatchFailedIntent(k, v.message)),
             run.successful, run.unclear, run.errors + |b|, Min(i + size, |convs|), k, run.preview,
             if v.notice.Some? then v.notice.value else run.keyError, v.notice.Some? || run.keyPanel,
             run.stopped, if i + size < |convs| then run.delays + 1 else run.delays)
  {
  }

  /** A whole run, for the captured `paused` and `apiKeyError`. */
  function Extraction(convs: seq<Conversation>, size: nat, replies: nat -> Reply, paused: bool, keyError: string, keyPanel: bool): Run
    requires size > 0
  {
    if paused then Initial(keyPanel) else RunFrom(convs, size, Verdicts(replies), keyError, 0, 1, Initial(keyPanel))
  }

  /** `extractedData`: the accumulated intents and tallies. */
  datatype Extracted = Extracted(intents: seq<IntentRecord>, successful: nat, unclear: nat, errors: nat)
  {
    function TotalProcessed(): nat {
      |intents|
    }

    function Sample(): seq<IntentRecord> {
      Take(intents, 5)
    }
  }

  datatype Stats = Stats(successful: nat, unclear: nat, errors: nat)

  // ---------------------------------------------------------------- the component

  class ExtractionStep {
    var extracting: bool
    var paused: bool
    var currentBatch: nat
    var totalBatches: nat
    var processedCount: nat
    var extractedData: Option<Extracted>
    var error: string
    var preview: seq<IntentRecord>
    var stats: Stats
    var batchSize: nat
    var showApiConfig: bool
    var openaiKey: string
    var apiKeyError: string

    predicate Valid()
      reads this
    {
      IsBatchSize(batchSize)
    }

    /** The initial state; `key` is `apiConfig?.openaiKey || ""`. */
    constructor (key: string)
      ensures Valid()
      ensures !extracting && !paused && currentBatch == 0 && totalBatches == 0 && processedCount == 0
      ensures extractedData.None? && error == "" && preview == [] && stats == Stats(0, 0, 0)
      ensures batchSize == 10 && !showApiConfig && openaiKey == key && apiKeyError == ""
    {
      extracting, paused := false, false;
      currentBatch, totalBatches, processedCount := 0, 0, 0;
      extractedData, error, preview, stats := None, "", [], Stats(0, 0, 0);
      batchSize, showApiConfig, openaiKey, apiKeyError := 10, false, key, "";
    }

    method SetBatchSize(size: nat)
      requires IsBatchSize(size)
      modifies this
      ensures Valid() && batchSize == size
      ensures unchanged(this`extracting, this`paused, this`extractedData, this`apiKeyError, this`openaiKey)
    {
      batchSize := size;
    }

    /** The text field of the key panel. */
    method TypeKey(key: string)
      modifies this
      ensures openaiKey == key && batchSize == old(batchSize)
      ensures unchanged(this`extracting, this`paused, this`extractedData, this`apiKeyError, this`showApiConfig)
    {
      openaiKey := key;
    }

    /**
     * `startExtraction`: `replies(k)` is the endpoint's answer to batch `k`, and `delays` is the
     * number of pauses between batches. The loop reads the `paused` and `apiKeyError` of the
     * state it started from, whatever it sets on the way.
     */
    method StartExtraction(convs: seq<Conversation>, replies: nat -> Reply) returns (delays: nat)
      requires Valid()
      modifies this
      ensures Valid() && batchSize == old(batchSize) && openaiKey == old(openaiKey)
      ensures var run := Extraction(convs, old(batchSize), replies, old(paused), old(apiKeyError), old(showApiConfig));
        && Displays(run, delays) && extracting == old(paused)
        && extractedData == (if old(paused) || run.stopped then old(extractedData)
                             else Some(Extracted(run.results, run.successful, run.unclear, run.errors)))
      ensures totalBatches == CeilDiv(|convs|, batchSize) && error == ""
    {
      var stillPaused, knownKeyError := paused, apiKeyError;
      Reset(|convs|);
      if stillPaused {
        delays := 0;
      } else {
        delays := RunToEnd(convs, replies, knownKeyError);
      }
    }

    /** The resets at the head of `startExtraction`, for `n` conversations. */
    method Reset(n: nat)
      requires Valid()
      modifies this
      ensures Valid() && extracting && !paused && error == ""
      ensures Progress([], 0, 0, 0, 0, false) == Initial(showApiConfig) && stats == Stats(0, 0, 0)
      ensures totalBatches == CeilDiv(n, batchSize)
      ensures batchSize == old(batchSize) && openaiKey == old(openaiKey) && showApiConfig == old(showApiConfig)
      ensures extractedData == old(extractedData)
    {
      extracting, paused := true, false;
      currentBatch, processedCount, error, apiKeyError, preview, stats := 0, 0, "", "", [], Stats(0, 0, 0);
      totalBatches := CeilDiv(n, batchSize);
    }

    /** The fields a run shows once it is over, and the number of waits it made. */
    predicate Displays(run: Run, delays: nat)
      reads this
    {
      && currentBatch == run.batch && processedCount == run.processed && preview == run.preview
      && stats == Stats(run.successful, run.unclear, run.errors)
      && apiKeyError == run.keyError && showApiConfig == run.keyPanel && delays == run.delays
      && paused == run.stopped
    }

    /** The loop and, when it was not stopped, the extracted data it hands on. */
    method RunToEnd(convs: seq<Conversation>, replies: nat -> Reply, knownKeyError: string) returns (delays: nat)
      requires batchSize > 0 && extracting && !paused
      requires Progress([], 0, 0, 0, 0, false) == Initial(showApiConfig) && stats == Stats(0, 0, 0)
      modifies this`currentBatch, this`processedCount, this`preview, this`stats, this`paused, this`extracting, this`apiKeyError, this`showApiConfig, this`extractedData
      ensures var run := Extraction(convs, batchSize, replies, false, knownKeyError, old(showApiConfig));
        && Displays(run, delays) && !extracting
        && extractedData == (if run.stopped then old(extractedData)
                             else Some(Extracted(run.results, run.successful, run.unclear, run.errors)))
    {
      var results, successful, unclear, errorCount, stop;
      results, successful, unclear, errorCount, delays, stop := RunBatches(convs, replies, knownKeyError);
      if !stop {
        extractedData := Some(Extracted(results, successful, unclear, errorCount));
        extracting := false;
      }
    }

    /** The `for` loop of `startExtraction`, from the reset state, for the captured key error. */
    method RunBatches(convs: seq<Conversation>, replies: nat -> Reply, knownKeyError: string)
      returns (results: seq<IntentRecord>, successful: nat, unclear: nat, errorCount: nat, delays: nat, stop: bool)
      requires batchSize > 0 && extracting && !paused
      requires Progress([], 0, 0, 0, 0, false) == Initial(showApiConfig) && stats == Stats(0, 0, 0)
      modifies this`currentBatch, this`processedCount, this`preview, this`stats, this`paused, this`extracting, this`apiKeyError, this`showApiConfig
      ensures Progress(results, successful, unclear, errorCount, delays, stop)
        == Extraction(convs, batchSize, replies, false, knownKeyError, old(showApiConfig))
      ensures stats == Stats(successful, unclear, errorCount)
      ensures stop ==> paused && !extracting
      ensures !stop ==> extracting && !paused
    {
      ghost var verdicts := Verdicts(replies);
      ghost var final := RunFrom(convs, batchSize, verdicts, knownKeyError, 0, 1, Initial(showApiConfig));
      assert final == Extraction(convs, batchSize, replies, false, knownKeyError, showApiConfig);
      results, successful, unclear, errorCount, delays, stop := [], 0, 0, 0, 0, false;
      var i, k := 0, 1;
      while i < |convs|
        invariant extracting && !paused && stats == Stats(successful, unclear, errorCount)
        invariant RunFrom(convs, batchSize, verdicts, knownKeyError, i, k,
                          Progress(results, successful, unclear, errorCount, delays, false)) == final
        decreases |convs| - i
      {
        results, successful, unclear, errorCount, delays, stop :=
          Advance(convs, replies, knownKeyError, i, k, results, successful, unclear, errorCount, delays, final);
        if stop {
          return;
        }
        i, k := i + batchSize, k + 1;
      }
      RunFromEnds(convs, batchSize, verdicts, knownKeyError, i, k, Progress(results, successful, unclear, errorCount, delays, false));
    }

    /**
     * One pass of the loop, against `final`, the state the run from offset `i` ends in: the pass
     * either stops with that state reached, or leaves the rest of the run to end in it.
     */
    method Advance(convs: seq<Conversation>, replies: nat -> Reply, knownKeyError: string, i: nat, k: nat,
                   results: seq<IntentRecord>, successful: nat, unclear: nat, errorCount: nat, delays: nat, ghost final: Run)
      returns (results': seq<IntentRecord>, successful': nat, unclear': nat, errorCount': nat, delays': nat, stop: bool)
      requires batchSize > 0 && i < |convs| && stats == Stats(successful, unclear, errorCount)
      requires RunFrom(convs, batchSize, Verdicts(replies), knownKeyError, i, k,
                       Progress(results, successful, unclear, errorCount, delays, false)) == final
      modifies this`currentBatch, this`processedCount, this`preview, this`stats, this`paused, this`extracting, this`apiKeyError, this`showApiConfig
      ensures batchSize == old(batchSize) && stats == Stats(successful', unclear', errorCount')
      ensures stop ==> paused && !extracting && Progress(results', successful', unclear', errorCount', delays', stop) == final
      ensures !stop ==> paused == old(paused) && extracting == old(extracting)
      ensures !stop ==> RunFrom(convs, batchSize, Verdicts(replies), knownKeyError, i + batchSize, k + 1,
                                Progress(results', successful', unclear', errorCount', delays', false)) == final
    {
      ghost var run := Progress(results, successful, unclear, errorCount, delays, false);
      assert Verdicts(replies)(k) == Judge(k, replies(k));
      RunFromAdvances(convs, batchSize, Verdicts(replies), knownKeyError, i, k, run, final);
      results', successful', unclear', errorCount', delays', stop :=
        RunBatch(convs, i, k, replies(k), knownKeyError, results, successful, unclear, errorCount, delays);
    }

    /** The state a run has reached, from the loop's locals and the fields it sets. */
    function Progress(results: seq<IntentRecord>, successful: nat, unclear: nat, errors: nat, delays: nat, stopped: bool): Run
      reads this
    {
      Run(results, successful, unclear, errors, processedCount, currentBatch, preview, apiKeyError, showApiConfig, stopped, delays)
    }

    /**
     * The body of the loop for batch number `k` at offset `i`: `stop` says that it failed while a
     * key error had been captured, in which case the step pauses and leaves the loop.
     */
    method RunBatch(convs: seq<Conversation>, i: nat, k: nat, reply: Reply, knownKeyError: string,
                    results: seq<IntentRecord>, successful: nat, unclear: nat, errorCount: nat, delays: nat)
      returns (results': seq<IntentRecord>, successful': nat, unclear': nat, errorCount': nat, delays': nat, stop: bool)
      requires batchSize > 0 && i < |convs| && stats == Stats(successful, unclear, errorCount)
      modifies this`currentBatch, this`processedCount, this`preview, this`stats, this`paused, this`extracting, this`apiKeyError, this`showApiConfig
      ensures Progress(results', successful', unclear', errorCount', delays', stop)
        == Step(old(Progress(results, successful, unclear, errorCount, delays, false)), convs, batchSize, i, k,
                Judge(k, reply), knownKeyError)
      ensures stats == Stats(successful', unclear', errorCount')
      ensures stop ==> paused && !extracting
      ensures !stop ==> paused == old(paused) && extracting == old(extracting)
    {
      var verdict := Judge(k, reply);
      if verdict.Succeeded? {
        results', successful', unclear', errorCount', delays', stop :=
          AcceptBatch(convs, i, k, verdict, knownKeyError, results, successful, unclear, errorCount, delays);
      } else if knownKeyError != "" {
        results', successful', unclear', errorCount', delays', stop :=
          HaltBatch(convs, i, k, verdict, knownKeyError, results, successful, unclear, errorCount, delays);
      } else {
        results', successful', unclear', errorCount', delays', stop :=
          DegradeFailedBatch(convs, i, k, verdict, knownKeyError, results, successful, unclear, errorCount, delays);
      }
    }

    /** The `try` of one batch that succeeded: its intents appended, its tallies added, the preview moved on. */
    method AcceptBatch(convs: seq<Conversation>, i: nat, k: nat, verdict: Verdict, knownKeyError: string,
                       results: seq<IntentRecord>, successful: nat, unclear: nat, errorCount: nat, delays: nat)
      returns (results': seq<IntentRecord>, successful': nat, unclear': nat, errorCount': nat, delays': nat, stop: bool)
      requires batchSize > 0 && i < |convs| && stats == Stats(successful, unclear, errorCount)
      requires verdict.Succeeded?
      modifies this`currentBatch, this`processedCount, this`preview, this`stats
      ensures Progress(results', successful', unclear', errorCount', delays', stop)
        == Step(old(Progress(results, successful, unclear, errorCount, delays, false)), convs, batchSize, i, k, verdict, knownKeyError)
      ensures stats == Stats(successful', unclear', errorCount')
      ensures !stop
    {
      ghost var before := Progress(results, successful, unclear, errorCount, delays, false);
      var n := |convs|;
      var res := verdict.result;
      results', successful', unclear', errorCount' := results + res.intents, successful + res.successful, unclear + res.unclear, errorCount + res.errors;
      delays', stop := if i + batchSize < n then delays + 1 else delays, false;
      currentBatch, processedCount, preview, stats := k, Min(i + batchSize, n), NextPreview(preview, res.intents), Stats(successful', unclear', errorCount');
      StepAccepts(before, convs, batchSize, i, k, verdict, knownKeyError);
    }

    /** A permission error shows its notice in the key panel. */
    method NoteKeyError(notice: Option<string>)
      modifies this`apiKeyError, this`showApiConfig
      ensures apiKeyError == (if notice.Some? then notice.value else old(apiKeyError))
      ensures showApiConfig == (notice.Some? || old(showApiConfig))
    {
      if notice.Some? {
        apiKeyError, showApiConfig := notice.value, true;
      }
    }

    /**
     * The `catch` of a failed batch when a key error was captured: the key notice noted, the
     * step paused and the loop left, with results and progress untouched.
     */
    method HaltBatch(convs: seq<Conversation>, i: nat, k: nat, verdict: Verdict, knownKeyError: string,
                     results: seq<IntentRecord>, successful: nat, unclear: nat, errorCount: nat, delays: nat)
      returns (results': seq<IntentRecord>, successful': nat, unclear': nat, errorCount': nat, delays': nat, stop: bool)
      requires batchSize > 0 && i < |convs| && stats == Stats(successful, unclear, errorCount)
      requires verdict.Failed?
      requires knownKeyError != ""
      modifies this`currentBatch, this`processedCount, this`preview, this`stats, this`paused, this`extracting, this`apiKeyError, this`showApiConfig
      ensures Progress(results', successful', unclear', errorCount', delays', stop)
        == Step(old(Progress(results, successful, unclear, errorCount, delays, false)), convs, batchSize, i, k, verdict, knownKeyError)
      ensures stats == Stats(successful', unclear', errorCount')
      ensures stop ==> paused && !extracting
      ensures !stop ==> paused == old(paused) && extracting == old(extracting)
    {
      ghost var before := Progress(results, successful, unclear, errorCount, delays, false);
      NoteKeyError(verdict.notice);
      results', successful', unclear', errorCount', delays', stop := results, successful, unclear, errorCount, delays, true;
      currentBatch, paused, extracting := k, true, false;
      StepHalts(before, convs, batchSize, i, k, verdict, knownKeyError);
    }

    /**
     * The `catch` of a failed batch otherwise: the key notice noted, then one `ERROR:` entry per
     * conversation of the batch, and progress moved on.
     */
    method DegradeFailedBatch(convs: seq<Conversation>, i: nat, k: nat, verdict: Verdict, knownKeyError: string,
                     results: seq<IntentRecord>, successful: nat, unclear: nat, errorCount: nat, delays: nat)
      returns (results': seq<IntentRecord>, successful': nat, unclear': nat, errorCount': nat, delays': nat, stop: bool)
      requires batchSize > 0 && i < |convs| && stats == Stats(successful, unclear, errorCount)
      requires verdict.Failed?
      requires knownKeyError == ""
      modifies this`currentBatch, this`processedCount, this`preview, this`stats, this`paused, this`extracting, this`apiKeyError, this`showApiConfig
      ensures Progress(results', successful', unclear', errorCount', delays', stop)
        == Step(old(Progress(results, successful, unclear, errorCount, delays, false)), convs, batchSize, i, k, verdict, knownKeyError)
      ensures stats == Stats(successful', unclear', errorCount')
      ensures stop ==> paused && !extracting
      ensures !stop ==> paused == old(paused) && extracting == old(extracting)
    {
      ghost var before := Progress(results, successful, unclear, errorCount, delays, false);
      var n := |convs|;
      var next := Min(i + batchSize, n);
      NoteKeyError(verdict.notice);
      var entries, failures := ExtractIntents.DegradeBatch(convs[i..next], BatchFailedIntent(k, verdict.message));
      results', successful', unclear', errorCount' := results + entries, successful, unclear, errorCount + failures;
      delays', stop := if i + batchSize < n then delays + 1 else delays, false;
      currentBatch, processedCount := k, next;
      stats := Stats(successful', unclear', errorCount');
      StepDegrades(before, convs, batchSize, i, k, verdict);
    }

    /** `pauseExtraction`. */
    method Pause()
      modifies this
      ensures paused && !extracting
      ensures unchanged(this`extractedData, this`processedCount, this`currentBatch, this`batchSize, this`apiKeyError)
    {
      paused, extracting := true, false;
    }

    /**
     * `resumeExtraction`: the button is shown only while paused, and the `startExtraction` it calls
     * is the one of that render, whose `paused` is still true. So the run resets the progress and
     * processes no batch, and the view stays in its extracting state.
     */
    method Resume(convs: seq<Conversation>, replies: nat -> Reply)
      requires Valid() && paused
      modifies this
      ensures Valid()
      ensures !paused && extracting && extractedData == old(extractedData)
      ensures processedCount == 0 && currentBatch == 0 && preview == [] && stats == Stats(0, 0, 0)
      ensures apiKeyError == "" && totalBatches == CeilDiv(|convs|, batchSize)
    {
      var _ := StartExtraction(convs, replies);
    }

    /** `updateApiKey`: the key to hand to `onApiConfigUpdate`, when it has the accepted form. */
    method UpdateApiKey() returns (update: Option<string>)
      modifies this
      ensures update.Some? <==> KeyAccepted(old(openaiKey))
      ensures update.Some? ==> update.value == openaiKey && apiKeyError == "" && !showApiConfig
      ensures update.None? ==> apiKeyError == KeyFormatError && showApiConfig == old(showApiConfig)
      ensures openaiKey == old(openaiKey) && batchSize == old(batchSize)
      ensures unchanged(this`extracting, this`paused, this`extractedData)
    {
      if openaiKey != "" && StartsWith(openaiKey, "sk-") {
        update := Some(openaiKey);
        apiKeyError, showApiConfig := "", false;
      } else {
        update := None;
        apiKeyError := KeyFormatError;
      }
    }
  }

  const KeyFormatError: string := "Invalid API key format. Key should start with 'sk-'"

  /** A key the panel passes on: non-empty and starting with `sk-`. */
  predicate KeyAccepted(key: string) {
    key != [] && StartsWith(key, "sk-")
  }

  // ---------------------------------------------------------------- properties of a run

  /** A run's totals reconcile: results = successful + unclear + errors. */
  predicate Balanced(run: Run) {
    |run.results| == run.successful + run.unclear + run.errors
  }

  /** A reply whose result reconciles (every result of the endpoint does). */
  predicate ReplyBalanced(reply: Reply) {
    reply.Answered? && reply.body.Body? && reply.body.result.Some? ==>
      |reply.body.result.value.intents| == reply.body.result.value.successful + reply.body.result.value.unclear + reply.body.result.value.errors
  }

  /** A verdict whose batch result, if any, reconciles. */
  predicate VerdictBalanced(v: Verdict) {
    v.Succeeded? ==> |v.result.intents| == v.result.successful + v.result.unclear + v.result.errors
  }

  lemma JudgeBalanced(k: nat, reply: Reply)
    requires ReplyBalanced(reply)
    ensures VerdictBalanced(Judge(k, reply))
  {
    JudgeCases(k, reply);
  }

  lemma StepBalanced(run: Run, convs: seq<Conversation>, size: nat, i: nat, k: nat, v: Verdict, keyError: string)
    requires 0 < size && i < |convs| && Balanced(run) && VerdictBalanced(v)
    ensures Balanced(Step(run, convs, size, i, k, v, keyError))
  {
  }

  /** The run reconciles when every verdict does. */
  lemma {:induction false} RunBalanced(convs: seq<Conversation>, size: nat, verdicts: nat -> Verdict, keyError: string, i: nat, k: nat, run: Run)
    requires size > 0 && Balanced(run)
    requires forall b :: VerdictBalanced(verdicts(b))
    ensures Balanced(RunFrom(convs, size, verdicts, keyError, i, k, run))
    decreases |convs| - i
  {
    if i < |convs| && !run.stopped {
      var next := Step(run, convs, size, i, k, verdicts(k), keyError);
      StepBalanced(run, convs, size, i, k, verdicts(k), keyError);
      RunFromUnrolls(convs, size, verdicts, keyError, i, k, run);
      RunBalanced(convs, size, verdicts, keyError, i + size, k + 1, next);
    } else {
      RunFromEnds(convs, size, verdicts, keyError, i, k, run);
    }
  }

  /** A whole run reconciles when every reply does. */
  lemma ExtractionBalanced(convs: seq<Conversation>, size: nat, replies: nat -> Reply, keyError: string, keyPanel: bool)
    requires size > 0
    requires forall k :: ReplyBalanced(replies(k))
    ensures Balanced(Extraction(convs, size, replies, false, keyError, keyPanel))
  {
    var verdicts := Verdicts(replies);
    forall k ensures VerdictBalanced(verdicts(k)) {
      JudgeBalanced(k, replies(k));
    }
    RunBalanced(convs, size, verdicts, keyError, 0, 1, Initial(keyPanel));
  }

  /**
   * The loop visits the offsets `m · size` with the batch numbers `m + 1`, which is
   * `Math.floor(i / batchSize) + 1` at offset `i`.
   */
  lemma BatchNumberAtOffset(m: nat, size: nat)
    requires size > 0
    ensures var i := m * size; i / size + 1 == m + 1
  {
    DivMul(m, size);
  }

  /**
   * A run from offset `i` that does not stop processes every conversation, numbers its last
   * batch `k - 1` plus the blocks left from `i`, and waits once after every batch but the last.
   */
  lemma {:induction false} RunLength(convs: seq<Conversation>, size: nat, verdicts: nat -> Verdict, keyError: string, i: nat, k: nat, run: Run)
    requires size > 0 && i < |convs| && !run.stopped
    ensures var r := RunFrom(convs, size, verdicts, keyError, i, k, run);
      !r.stopped ==> r.processed == |convs| && r.batch + 1 == k + Blocks(|convs|, size, i)
                     && r.delays + 1 == run.delays + Blocks(|convs|, size, i)
    decreases |convs| - i
  {
    var next := Step(run, convs, size, i, k, verdicts(k), keyError);
    StepProgress(run, convs, size, i, k, verdicts(k), keyError);
    RunFromUnrolls(convs, size, verdicts, keyError, i, k, run);
    if next.stopped || i + size >= |convs| {
      RunFromEnds(convs, size, verdicts, keyError, i + size, k + 1, next);
    } else {
      RunLength(convs, size, verdicts, keyError, i + size, k + 1, next);
    }
  }

  /**
   * A whole run that is not stopped processes all `n` conversations, ends on batch
   * `ceil(n / size)` (the `totalBatches` it shows), and waits between consecutive batches only.
   */
  lemma ExtractionLength(convs: seq<Conversation>, size: nat, replies: nat -> Reply, keyError: string, keyPanel: bool)
    requires size > 0 && convs != []
    ensures var r := Extraction(convs, size, replies, false, keyError, keyPanel);
      !r.stopped ==> r.processed == |convs| && r.batch == CeilDiv(|convs|, size) && r.delays + 1 == r.batch
  {
    RunLength(convs, size, Verdicts(replies), keyError, 0, 1, Initial(keyPanel));
    BlocksCeil(|convs|, size, 0);
  }

  lemma BatchFailedIsError(k: nat, message: string)
    ensures IsErrorIntent(BatchFailedIntent(k, message))
  {
    assert BatchFailedIntent(k, message) == ErrorPrefix + (" Batch " + NatToString(k) + " failed - " + message);
  }

  /** Each result is an `ERROR:` entry for the conversation at the same position. */
  predicate ErrorsFor(results: seq<IntentRecord>, convs: seq<Conversation>) {
    |results| <= |convs|
    && forall j :: 0 <= j < |results| ==> results[j].convId == convs[j].convId && IsErrorIntent(results[j].intent)
  }

  /** After a failed batch at offset `i`, the first `min(i + size, n)` results stand for the first conversations. */
  lemma FailedPrefix(run: Run, convs: seq<Conversation>, size: nat, i: nat, k: nat, v: Verdict)
    requires 0 < size && i < |convs| && !run.stopped && v.Failed? && |run.results| == i
    requires ErrorsFor(run.results, convs)
    ensures ErrorsFor(Step(run, convs, size, i, k, v, "").results, convs)
  {
    var next := Step(run, convs, size, i, k, v, "");
    FailedBatch(run, convs, size, i, k, v);
    forall j | 0 <= j < |next.results|
      ensures next.results[j].convId == convs[j].convId && IsErrorIntent(next.results[j].intent)
    {
      if j < i {
        assert next.results[j] == next.results[..i][j];
      } else {
        assert next.results[j] == next.results[i + j - i];
      }
    }
  }

  /**
   * When every batch fails and no key error was captured, the run writes exactly one `ERROR:`
   * entry per conversation, in order, and counts them all as errors.
   */
  lemma {:induction false} AllFailed(convs: seq<Conversation>, size: nat, verdicts: nat -> Verdict, i: nat, k: nat, run: Run)
    requires size > 0 && i <= |convs| && !run.stopped
    requires forall b :: verdicts(b).Failed?
    requires |run.results| == i && run.errors == i && run.successful == 0 && run.unclear == 0
    requires ErrorsFor(run.results, convs)
    ensures var r := RunFrom(convs, size, verdicts, "", i, k, run);
      && |r.results| == |convs| && r.errors == |convs| && r.successful == 0 && r.unclear == 0
      && ErrorsFor(r.results, convs)
    decreases |convs| - i
  {
    if i < |convs| {
      var next := Step(run, convs, size, i, k, verdicts(k), "");
      FailedBatch(run, convs, size, i, k, verdicts(k));
      FailedPrefix(run, convs, size, i, k, verdicts(k));
      RunFromUnrolls(convs, size, verdicts, "", i, k, run);
      if i + size < |convs| {
        AllFailed(convs, size, verdicts, i + size, k + 1, next);
      } else {
        RunFromEnds(convs, size, verdicts, "", i + size, k + 1, next);
      }
    } else {
      RunFromEnds(convs, size, verdicts, "", i, k, run);
    }
  }

  /**
   * When no reply is accepted and no key error was captured, a run writes one `ERROR:` entry per
   * conversation, in order, and counts them all as errors.
   */
  lemma EveryBatchFails(convs: seq<Conversation>, size: nat, replies: nat -> Reply, keyPanel: bool)
    requires size > 0
    requires forall k :: !Accepted(replies(k))
    ensures var r := Extraction(convs, size, replies, false, "", keyPanel);
      && |r.results| == |convs| && r.errors == |convs| && r.successful == 0 && r.unclear == 0
      && ErrorsFor(r.results, convs)
  {
    var verdicts := Verdicts(replies);
    forall k ensures verdicts(k).Failed? {
      JudgeCases(k, replies(k));
    }
    AllFailed(convs, size, verdicts, 0, 1, Initial(keyPanel));
  }

  /** A run started from a paused render processes nothing and resets everything. */
  lemma PausedRunsNothing(convs: seq<Conversation>, size: nat, replies: nat -> Reply, keyError: string, keyPanel: bool)
    requires size > 0 && convs != []
    ensures var r := Extraction(convs, size, replies, true, keyError, keyPanel);
      r.results == [] && r.processed == 0 && r.batch == 0 && !r.stopped
  {
  }

  /** A permission error does not stop a run that started with no key error: the batch is degraded and the loop goes on. */
  lemma PermissionDoesNotStop(run: Run, convs: seq<Conversation>, size: nat, i: nat, k: nat, v: Verdict)
    requires 0 < size && i < |convs| && !run.stopped
    requires v.Failed? && v.notice.Some?
    ensures var r := Step(run, convs, size, i, k, v, "");
      !r.stopped && r.keyPanel && r.keyError == v.notice.value && r.processed > i
  {
  }

  // ---------------------------------------------------------------- the endpoint's answers

  /** What the client reads from the endpoint's outcome for one batch. */
  function ReplyOf(o: ExtractIntents.Outcome, statusText: string): Reply {
    match o
    case Rejected(_, error) => Answered(false, statusText, Body(false, error, false, None))
    case PermissionDenied(_, _) => Answered(false, statusText, Body(false, ExtractIntents.PermissionMessage, true, None))
    case Completed(success, failure, result) =>
      Answered(true, statusText, Body(success, failure.GetOr(""), false, Some(result)))
  }

  /**
   * Against the endpoint itself, a finished run's totals reconcile: whatever requests the batches
   * carry and whatever the provider answers, the intents shown equal successful + unclear + errors.
   */
  lemma EndpointRunBalanced(convs: seq<Conversation>, size: nat, requests: nat -> ExtractIntents.Request,
                            answers: nat -> ExtractIntents.ProviderReply, parse: string -> ExtractIntents.Parsed,
                            pick: nat -> ExtractIntents.Pick, statusText: string, keyError: string, keyPanel: bool)
    requires size > 0
    ensures Balanced(Extraction(convs, size,
      (k: nat) => ReplyOf(ExtractIntents.Extract(requests(k), answers(k), parse, pick), statusText), false, keyError, keyPanel))
  {
    var replies := (k: nat) => ReplyOf(ExtractIntents.Extract(requests(k), answers(k), parse, pick), statusText);
    forall k ensures ReplyBalanced(replies(k)) {
      ExtractIntents.Reconciles(requests(k), answers(k), parse, pick);
      assert replies(k) == ReplyOf(ExtractIntents.Extract(requests(k), answers(k), parse, pick), statusText);
    }
    ExtractionBalanced(convs, size, replies, keyError, keyPanel);
  }

  /**
   * An endpoint answer with `success: false` (an API error) counts as a failed batch, so the
   * client drops the endpoint's own error entries and writes its own; an endpoint rejection or a
   * 403 does too, and only the 403 raises the key notice.
   */
  lemma EndpointFailures(k: nat, o: ExtractIntents.Outcome, statusText: string)
    requires !o.Completed? || !o.success
    ensures Judge(k, ReplyOf(o, statusText)).Failed?
    ensures o.PermissionDenied? ==> Judge(k, ReplyOf(o, statusText)).notice == Some(ExtractIntents.PermissionMessage)
  {
  }

  // ---------------------------------------------------------------- the intents CSV

  /** `Error` for an `ERROR:` intent, else `Unclear` when its lowercase mentions "unclear", else `Success`. */
  function Status(intent: string): (s: string)
    ensures s == "Error" <==> IsErrorIntent(intent)
    ensures s == "Unclear" <==> !IsErrorIntent(intent) && Contains(Lower(intent), "unclear")
    ensures s == "Success" <==> !IsErrorIntent(intent) && !Contains(Lower(intent), "unclear")
  {
    if IsErrorIntent(intent) then "Error"
    else if Contains(Lower(intent), "unclear") then "Unclear"
    else "Success"
  }

  /** The client's `Unclear` is narrower than the endpoint's unclear tally, which also counts "unknown". */
  lemma StatusWithinUnclear(intent: string)
    requires Status(intent) == "Unclear"
    ensures ExtractIntents.IsUnclear(intent)
  {
  }

  const IntentHeader: seq<Cell> := [Plain("ConvID"), Plain("Date"), Plain("Intent"), Plain("Status")]

  /** `[ConvID, Date || "", quoted Intent, status]`. */
  function IntentRow(r: IntentRecord): seq<Cell> {
    [Plain(ConvIdText(r.convId)), Plain(r.date), Quoted(r.intent), Plain(Status(r.intent))]
  }

  function IntentRows(rs: seq<IntentRecord>): (rows: seq<seq<Cell>>)
    ensures |rows| == |rs|
    ensures forall j :: 0 <= j < |rs| ==> rows[j] == IntentRow(rs[j])
  {
    if rs == [] then [] else [IntentRow(rs[0])] + IntentRows(rs[1..])
  }

  /** `downloadIntentsCSV`: nothing without extracted data, else the header and one line per intent. */
  function IntentsCsv(data: Option<Extracted>): (csv: Option<string>)
    ensures csv.Some? <==> data.Some?
  {
    match data
    case None => None
    case Some(d) => Some(RenderTable([IntentHeader] + IntentRows(d.intents)))
  }

  /** Identifiers and dates that carry no separator or quote. */
  predicate PlainFields(r: IntentRecord) {
    var id := ConvIdText(r.convId);
    ',' !in id && '\n' !in id && '"' !in id && ',' !in r.date && '\n' !in r.date && '"' !in r.date
  }

  /** The four values of an intent's line. */
  function IntentFields(r: IntentRecord): seq<string> {
    [ConvIdText(r.convId), r.date, r.intent, Status(r.intent)]
  }

  function AllIntentFields(rs: seq<IntentRecord>): (t: seq<seq<string>>)
    ensures |t| == |rs|
    ensures forall j :: 0 <= j < |rs| ==> t[j] == IntentFields(rs[j])
  {
    if rs == [] then [] else [IntentFields(rs[0])] + AllIntentFields(rs[1..])
  }

  lemma {:induction false} IntentRowsTexts(rs: seq<IntentRecord>)
    ensures TableTexts(IntentRows(rs)) == AllIntentFields(rs)
  {
    if rs != [] {
      IntentRowsTexts(rs[1..]);
      assert IntentRows(rs)[1..] == IntentRows(rs[1..]);
      assert Texts(IntentRow(rs[0])) == IntentFields(rs[0]);
    }
  }

  /** With plain identifiers and dates, every line of the intents CSV can be read back. */
  lemma IntentRowsSafe(rs: seq<IntentRecord>)
    requires forall j :: 0 <= j < |rs| ==> PlainFields(rs[j])
    ensures forall j :: 0 <= j < |rs| + 1 ==> SafeRow(([IntentHeader] + IntentRows(rs))[j])
  {
    var rows := [IntentHeader] + IntentRows(rs);
    HeaderSafe();
    forall j | 0 <= j < |rows| ensures SafeRow(rows[j]) {
      if j > 0 {
        assert rows[j] == IntentRow(rs[j - 1]);
        IntentRowSafe(rs[j - 1]);
      }
    }
  }

  lemma HeaderSafe()
    ensures SafeRow(IntentHeader)
  {
    forall j | 0 <= j < 4 ensures SafeCell(IntentHeader[j]) {
    }
  }

  lemma IntentRowSafe(r: IntentRecord)
    requires PlainFields(r)
    ensures SafeRow(IntentRow(r))
  {
    var st := Status(r.intent);
    assert ',' !in st && '\n' !in st && '"' !in st;
  }

  /**
   * Reading the intents CSV back by the rules of RFC 4180 yields the header and, per intent, its
   * identifier, date, intent text (quotes restored) and status.
   */
  lemma IntentsCsvRoundTrip(d: Extracted)
    requires forall j :: 0 <= j < |d.intents| ==> PlainFields(d.intents[j])
    ensures ReadTable(IntentsCsv(Some(d)).value) == Some([["ConvID", "Date", "Intent", "Status"]] + AllIntentFields(d.intents))
  {
    var rows := [IntentHeader] + IntentRows(d.intents);
    IntentRowsSafe(d.intents);
    TableRoundTrip(rows);
    assert rows[1..] == IntentRows(d.intents);
    IntentRowsTexts(d.intents);
    assert Texts(IntentHeader) == ["ConvID", "Date", "Intent", "Status"];
  }
}
