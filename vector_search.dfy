/**
 * The knowledge-base search route: for each extracted intent it skips the empty, unclear and
 * failed ones, queries the search service (the primary endpoint, then the legacy one when the
 * primary answers not-ok), and turns every hit scored below the threshold, every search that
 * found nothing and every failure into a review item, counting high- and low-confidence matches.
 * Both endpoints are oracles here: `primary(i)` and `legacy(i)` are their answers for intent `i`.
 */
module VectorSearch {
  import opened Common
  import opened Js
  import opened Domain

  // ---------------------------------------------------------------- what the service answers

  /** A JSON value where the code expects a number: absent, `null`, or a number. */
  datatype JsNumber = Undefined | Null | Number(value: real)

  predicate Truthy(x: JsNumber) {
    x.Number? && x.value != 0.0
  }

  /** `a || b` on numbers. */
  function OrNumber(a: JsNumber, b: JsNumber): JsNumber {
    if Truthy(a) then a else b
  }

  /** `a || b` on strings that may be absent. */
  function OrText(a: Option<string>, b: Option<string>): Option<string> {
    if a.Some? && a.value != "" then a else b
  }

  /** `x < threshold` as JavaScript compares: `undefined` is never less, `null` counts as 0. */
  predicate Below(x: JsNumber, threshold: real) {
    match x
    case Undefined => false
    case Null => 0.0 < threshold
    case Number(v) => v < threshold
  }

  /** The fields of a hit's record that the route reads. */
  datatype Metadata = Metadata(title: Option<string>, article: Option<string>, text: Option<string>)

  /** One hit, with the fields of both formats: `_score`/`score`, `_id`/`id`, `fields`/`metadata`. */
  datatype Hit = Hit(primaryScore: JsNumber, legacyScore: JsNumber, primaryId: Option<string>, legacyId: Option<string>,
                     fields: Option<Metadata>, metadata: Option<Metadata>)

  /** A parsed answer: `result.hits` of the primary format and `matches` of the legacy one, when present. */
  datatype Answer = Answer(resultHits: Option<seq<Hit>>, matches: Option<seq<Hit>>)

  /** `response.json()`: it rejects with a message, or yields an answer. */
  datatype Json = Unparsable(message: string) | Parsed(answer: Answer)

  /** One `fetch`: it rejects with a message, or it answers with its `ok`, status, status text, text and body. */
  datatype Reply = Rejected(message: string) | Response(ok: bool, status: int, statusText: string, text: string, json: Json)

  /** `m._score || m.score`: a primary score of 0 falls through to the legacy field. */
  function ScoreOf(h: Hit): JsNumber {
    OrNumber(h.primaryScore, h.legacyScore)
  }

  /** `m._id || m.id`. */
  function IdOf(h: Hit): Option<string> {
    OrText(h.primaryId, h.legacyId)
  }

  /** `m.fields || m.metadata`. */
  function MetadataOf(h: Hit): Option<Metadata> {
    if h.fields.Some? then h.fields else h.metadata
  }

  /** `result.result?.hits || result.matches || []`: an array, even an empty one, is taken as it is. */
  function HitsOf(a: Answer): seq<Hit> {
    if a.resultHits.Some? then a.resultHits.value
    else if a.matches.Some? then a.matches.value
    else []
  }

  // ---------------------------------------------------------------- configuration

  /** `config` of the request: each field absent (or `null`) when `None`. */
  datatype Config = Config(threshold: Option<real>, topK: Option<int>, namespace: Option<string>)

  /** `apiConfig` of the request. */
  datatype Credentials = Credentials(demoMode: bool, key: Option<string>, host: Option<string>)

  /** The values the loop uses: the threshold, `topK`, and the namespaces of the two endpoints. */
  datatype Settings = Settings(threshold: real, topK: int, namespace: string, legacyNamespace: string)

  const DefaultNamespace: string := "__default__"

  function SettingsOf(c: Config): Settings {
    var ns := if c.namespace.Some? && Trim(c.namespace.value) != "" then Trim(c.namespace.value) else DefaultNamespace;
    Settings(if c.threshold.Some? then c.threshold.value else 0.8,
             if c.topK.Some? then c.topK.value else 3,
             ns, if ns == DefaultNamespace then "" else ns)
  }

  /**
   * The threshold defaults to 0.8 and `topK` to 3; the namespace is the trimmed one given, else
   * `__default__`, which the legacy endpoint receives as the empty string.
   */
  lemma SettingsDefaults(c: Config)
    ensures var s := SettingsOf(c);
      && (c.threshold.None? ==> s.threshold == 0.8) && (c.threshold.Some? ==> s.threshold == c.threshold.value)
      && (c.topK.None? ==> s.topK == 3) && (c.topK.Some? ==> s.topK == c.topK.value)
      && s.namespace != ""
      && (c.namespace.Some? && Trim(c.namespace.value) != "" ==> s.namespace == Trim(c.namespace.value))
      && (c.namespace.None? ==> s.namespace == DefaultNamespace)
      && (s.legacyNamespace == "" <==> s.namespace == DefaultNamespace)
      && (s.namespace != DefaultNamespace ==> s.legacyNamespace == s.namespace)
  {
  }

  // ---------------------------------------------------------------- review items

  /** One intent as the request carries it. */
  datatype IntentInput = IntentInput(convId: ConvId, intent: string)

  /** A review item; `resultId`, `score` and `category` may be `null`. */
  datatype ReviewItem = ReviewItem(convId: ConvId, intent: string, resultId: Option<string>, score: JsNumber,
                                   category: Option<string>, articleChunk: string)

  const SkippedChunk: string := "Intent skipped – empty, unclear, or error."
  const NoMatchChunk: string := "No relevant KB chunk found."
  /** The message of the `TypeError` that `null.toFixed(4)` throws. */
  const NullScoreMessage: string := "Cannot read properties of null (reading 'toFixed')"

  /** An intent that is not searched: empty once trimmed, starting with "unclear" in any case, or a failure. */
  predicate Skipped(intent: string) {
    var t := Trim(intent);
    t == "" || StartsWith(Lower(t), "unclear") || StartsWith(t, ErrorPrefix)
  }

  function SkipItem(x: IntentInput): ReviewItem {
    ReviewItem(x.convId, x.intent, None, Number(0.0), Some("Skipped"), SkippedChunk)
  }

  function NoMatchItem(x: IntentInput): ReviewItem {
    ReviewItem(x.convId, x.intent, None, Number(0.0), Some("No Match Found"), NoMatchChunk)
  }

  function ErrorItem(x: IntentInput, message: string): ReviewItem {
    ReviewItem(x.convId, x.intent, None, Null, None, "[ERROR] " + message)
  }

  /** The error a not-ok answer throws. */
  function SearchFailed(status: int, statusText: string, text: string): string {
    "Pinecone search failed: " + IntToString(status) + " " + statusText + " - " + text
  }

  /** `metadata?.title || "Unknown Category"`. */
  function CategoryOf(m: Option<Metadata>): string {
    if m.Some? && m.value.title.Some? && m.value.title.value != "" then m.value.title.value else "Unknown Category"
  }

  /** `(metadata?.article || metadata?.text || "").slice(0, 400)`. */
  function ChunkOf(m: Option<Metadata>): string {
    if m.None? then ""
    else
      var t := OrText(OrText(m.value.article, m.value.text), Some(""));
      Take(t.value, 400)
  }

  /** The review item of a hit scored `score`, below the threshold. */
  function LowItem(x: IntentInput, h: Hit, score: real): ReviewItem {
    ReviewItem(x.convId, x.intent, IdOf(h), Number(score), Some(CategoryOf(MetadataOf(h))), ChunkOf(MetadataOf(h)))
  }

  // ---------------------------------------------------------------- the loop, as a specification

  /** The loop's accumulators: `reviewItems`, `highConfidenceMatches`, `lowConfidenceMatches`. */
  datatype Tally = Tally(items: seq<ReviewItem>, high: nat, low: nat)

  /** A low-confidence outcome: one more item and one more low-confidence match. */
  function Push(t: Tally, item: ReviewItem): Tally {
    t.(items := t.items + [item], low := t.low + 1)
  }

  /** The accumulators part-way through the hits, and whether building an item threw. */
  datatype Scan = Scan(tally: Tally, threw: bool)

  /**
   * One hit. A score at or above the threshold counts as high confidence; a lower one yields a
   * review item, whose `score.toFixed(4)` throws when the score is `null`. As written the
   * low-confidence counter is raised before the item is built (`asWritten`); otherwise after.
   */
  function ScanHit(t: Tally, h: Hit, threshold: real, x: IntentInput, asWritten: bool): Scan {
    var score := ScoreOf(h);
    if !Below(score, threshold) then Scan(t.(high := t.high + 1), false)
    else if score.Null? then Scan(if asWritten then t.(low := t.low + 1) else t, true)
    else Scan(Push(t, LowItem(x, h, score.value)), false)
  }

  /** The first `n` hits, from `t`; the loop is left at the first hit that throws. */
  function ScanUpTo(t: Tally, hits: seq<Hit>, n: nat, threshold: real, x: IntentInput, asWritten: bool): Scan
    requires n <= |hits|
    decreases n
  {
    if n == 0 then Scan(t, false)
    else
      var s := ScanUpTo(t, hits, n - 1, threshold, x, asWritten);
      if s.threw then s else ScanHit(s.tally, hits[n - 1], threshold, x, asWritten)
  }

  /** The reply the route reads: the legacy one iff the primary one answered not-ok. */
  function Consulted(primary: Reply, legacy: Reply): Reply {
    if primary.Response? && !primary.ok then legacy else primary
  }

  /** One pass of the loop, for intent `x`, from the accumulators `t`. */
  function Process(t: Tally, x: IntentInput, threshold: real, primary: Reply, legacy: Reply, asWritten: bool): Tally {
    if Skipped(x.intent) then Push(t, SkipItem(x))
    else
      match Consulted(primary, legacy)
      case Rejected(m) => Push(t, ErrorItem(x, m))
      case Response(ok, status, statusText, text, json) =>
        if !ok then Push(t, ErrorItem(x, SearchFailed(status, statusText, text)))
        else
          match json
          case Unparsable(m) => Push(t, ErrorItem(x, m))
          case Parsed(a) =>
            var hits := HitsOf(a);
            var s := ScanUpTo(t, hits, |hits|, threshold, x, asWritten);
            if s.threw then Push(s.tally, ErrorItem(x, NullScoreMessage))
            else if |hits| == 0 then Push(s.tally, NoMatchItem(x))
            else s.tally
  }

  /** The accumulators after the first `n` intents. */
  function Searched(intents: seq<IntentInput>, threshold: real, primary: nat -> Reply, legacy: nat -> Reply,
                    n: nat, asWritten: bool): Tally
    requires n <= |intents|
    decreases n
  {
    if n == 0 then Tally([], 0, 0)
    else Process(Searched(intents, threshold, primary, legacy, n - 1, asWritten), intents[n - 1], threshold,
                 primary(n - 1), legacy(n - 1), asWritten)
  }

  /** What the route answers. The demo branch draws random scores and is not modelled beyond its choice. */
  datatype Outcome =
    | DemoResults
    | MissingCredentials(status: nat, error: string)
    | Results(totalSearched: nat, high: nat, low: nat, reviewItems: seq<ReviewItem>)

  const MissingCredentialsError: string := "Missing Pinecone credentials. Set pineconeKey and pineconeHost."

  /** A key or host that is absent or empty. */
  predicate Falsy(s: Option<string>) {
    s.None? || s.value == ""
  }

  function Respond(intents: seq<IntentInput>, config: Config, creds: Credentials,
                   primary: nat -> Reply, legacy: nat -> Reply): Outcome {
    if creds.demoMode then DemoResults
    else if Falsy(creds.key) || Falsy(creds.host) then MissingCredentials(500, MissingCredentialsError)
    else
      var t := Searched(intents, SettingsOf(config).threshold, primary, legacy, |intents|, false);
      Results(|intents|, t.high, t.low, t.items)
  }

  // ---------------------------------------------------------------- the loop

  /** The POST handler. */
  method Search(intents: seq<IntentInput>, config: Config, creds: Credentials, primary: nat -> Reply, legacy: nat -> Reply)
    returns (r: Outcome)
    ensures r == Respond(intents, config, creds, primary, legacy)
    ensures r.Results? ==> |r.reviewItems| == r.low && r.high + r.low >= r.totalSearched
  {
    if creds.demoMode {
      return DemoResults;
    }
    if Falsy(creds.key) || Falsy(creds.host) {
      return MissingCredentials(500, MissingCredentialsError);
    }
    var threshold := SettingsOf(config).threshold;
    var items: seq<ReviewItem> := [];
    var high, low := 0, 0;
    for i := 0 to |intents|
      invariant Tally(items, high, low) == Searched(intents, threshold, primary, legacy, i, false)
    {
      items, high, low := SearchIntent(intents[i], threshold, primary(i), legacy(i), items, high, low);
    }
    r := Results(|intents|, high, low, items);
    ReviewItemsMatchLow(intents, threshold, primary, legacy);
    EveryIntentCounted(intents, threshold, primary, legacy, false);
  }

  /** The body of the loop for one intent, from the accumulators so far. */
  method SearchIntent(x: IntentInput, threshold: real, primary: Reply, legacy: Reply,
                      items: seq<ReviewItem>, high: nat, low: nat)
    returns (items': seq<ReviewItem>, high': nat, low': nat)
    ensures Tally(items', high', low') == Process(Tally(items, high, low), x, threshold, primary, legacy, false)
  {
    var text := Trim(x.intent);
    if text == "" || StartsWith(Lower(text), "unclear") || StartsWith(text, ErrorPrefix) {
      return items + [SkipItem(x)], high, low + 1;
    }
    var response := primary;
    if response.Response? && !response.ok {
      response := legacy;
    }
    if response.Rejected? {
      return items + [ErrorItem(x, response.message)], high, low + 1;
    }
    if !response.ok {
      return items + [ErrorItem(x, SearchFailed(response.status, response.statusText, response.text))], high, low + 1;
    }
    if response.json.Unparsable? {
      return items + [ErrorItem(x, response.json.message)], high, low + 1;
    }
    var hits := HitsOf(response.json.answer);
    var hasLowConf, threw;
    items', high', low', hasLowConf, threw := ScanHits(x, hits, threshold, items, high, low);
    if threw {
      items', low' := items' + [ErrorItem(x, NullScoreMessage)], low' + 1;
    } else if !hasLowConf && |hits| == 0 {
      items', low' := items' + [NoMatchItem(x)], low' + 1;
    }
  }

  /** The loop over the hits of one intent; `threw` when a hit's score is `null`. */
  method ScanHits(x: IntentInput, hits: seq<Hit>, threshold: real, items: seq<ReviewItem>, high: nat, low: nat)
    returns (items': seq<ReviewItem>, high': nat, low': nat, hasLowConf: bool, threw: bool)
    ensures Scan(Tally(items', high', low'), threw) == ScanUpTo(Tally(items, high, low), hits, |hits|, threshold, x, false)
    ensures hasLowConf ==> |hits| > 0
  {
    ghost var start := Tally(items, high, low);
    items', high', low' := items, high, low;
    hasLowConf, threw := false, false;
    var j := 0;
    while j < |hits|
      invariant 0 <= j <= |hits|
      invariant ScanUpTo(start, hits, j, threshold, x, false) == Scan(Tally(items', high', low'), false)
      invariant j == 0 ==> !hasLowConf
    {
      var h := hits[j];
      var score := ScoreOf(h);
      if Below(score, threshold) {
        if score.Null? {
          // `score.toFixed(4)` throws while the item is built; in this order the counter has not been raised yet
          assert ScanUpTo(start, hits, j + 1, threshold, x, false) == Scan(Tally(items', high', low'), true);
          threw := true;
          ScanStops(start, hits, j + 1, |hits|, threshold, x, false);
          return;
        }
        hasLowConf := true;
        items', low' := items' + [LowItem(x, h, score.value)], low' + 1;
      } else {
        high' := high' + 1;
      }
      j := j + 1;
    }
  }

  /** Once a hit has thrown, the later hits are not looked at. */
  lemma {:induction false} ScanStops(t: Tally, hits: seq<Hit>, m: nat, n: nat, threshold: real, x: IntentInput, asWritten: bool)
    requires m <= n <= |hits| && ScanUpTo(t, hits, m, threshold, x, asWritten).threw
    ensures ScanUpTo(t, hits, n, threshold, x, asWritten) == ScanUpTo(t, hits, m, threshold, x, asWritten)
    decreases n
  {
    if n > m {
      ScanStops(t, hits, m, n - 1, threshold, x, asWritten);
    }
  }

  // ---------------------------------------------------------------- properties

  /** Every low-confidence increment is paired with exactly one item, over the first `n` hits. */
  lemma {:induction false} ScanBalanced(t: Tally, hits: seq<Hit>, n: nat, threshold: real, x: IntentInput)
    requires n <= |hits| && |t.items| == t.low
    ensures var s := ScanUpTo(t, hits, n, threshold, x, false); |s.tally.items| == s.tally.low
    decreases n
  {
    if n > 0 {
      ScanBalanced(t, hits, n - 1, threshold, x);
    }
  }

  /** One pass keeps `reviewItems.length == lowConfidenceMatches`. */
  lemma ProcessBalanced(t: Tally, x: IntentInput, threshold: real, primary: Reply, legacy: Reply)
    requires |t.items| == t.low
    ensures var r := Process(t, x, threshold, primary, legacy, false); |r.items| == r.low
  {
    var reply := Consulted(primary, legacy);
    if !Skipped(x.intent) && reply.Response? && reply.ok && reply.json.Parsed? {
      var hits := HitsOf(reply.json.answer);
      ScanBalanced(t, hits, |hits|, threshold, x);
    }
  }

  /** At the end of the loop there are as many review items as low-confidence matches. */
  lemma {:induction false} ReviewItemsMatchLow(intents: seq<IntentInput>, threshold: real, primary: nat -> Reply, legacy: nat -> Reply)
    ensures forall n :: 0 <= n <= |intents| ==>
      |Searched(intents, threshold, primary, legacy, n, false).items| == Searched(intents, threshold, primary, legacy, n, false).low
  {
    forall n | 0 <= n <= |intents|
      ensures |Searched(intents, threshold, primary, legacy, n, false).items| == Searched(intents, threshold, primary, legacy, n, false).low
    {
      SearchedBalanced(intents, threshold, primary, legacy, n);
    }
  }

  lemma {:induction false} SearchedBalanced(intents: seq<IntentInput>, threshold: real, primary: nat -> Reply, legacy: nat -> Reply, n: nat)
    requires n <= |intents|
    ensures |Searched(intents, threshold, primary, legacy, n, false).items| == Searched(intents, threshold, primary, legacy, n, false).low
    decreases n
  {
    if n > 0 {
      SearchedBalanced(intents, threshold, primary, legacy, n - 1);
      ProcessBalanced(Searched(intents, threshold, primary, legacy, n - 1, false), intents[n - 1], threshold,
                      primary(n - 1), legacy(n - 1));
    }
  }

  /** Over the first `n` hits, unless one threw, every hit is counted once, as high or low confidence. */
  lemma {:induction false} ScanCounts(t: Tally, hits: seq<Hit>, n: nat, threshold: real, x: IntentInput, asWritten: bool)
    requires n <= |hits|
    ensures var s := ScanUpTo(t, hits, n, threshold, x, asWritten);
      && s.tally.high + s.tally.low >= t.high + t.low
      && (!s.threw ==> s.tally.high + s.tally.low == t.high + t.low + n)
    decreases n
  {
    if n > 0 {
      ScanCounts(t, hits, n - 1, threshold, x, asWritten);
    }
  }

  /** Every intent adds at least one to high + low, whichever way it ends. */
  lemma ProcessCounts(t: Tally, x: IntentInput, threshold: real, primary: Reply, legacy: Reply, asWritten: bool)
    ensures var r := Process(t, x, threshold, primary, legacy, asWritten); r.high + r.low >= t.high + t.low + 1
  {
    var reply := Consulted(primary, legacy);
    if !Skipped(x.intent) && reply.Response? && reply.ok && reply.json.Parsed? {
      var hits := HitsOf(reply.json.answer);
      ScanCounts(t, hits, |hits|, threshold, x, asWritten);
    }
  }

  /** So high + low is at least the number of intents searched. */
  lemma {:induction false} EveryIntentCounted(intents: seq<IntentInput>, threshold: real, primary: nat -> Reply,
                                              legacy: nat -> Reply, asWritten: bool)
    ensures var t := Searched(intents, threshold, primary, legacy, |intents|, asWritten); t.high + t.low >= |intents|
  {
    SearchedCounts(intents, threshold, primary, legacy, |intents|, asWritten);
  }

  lemma {:induction false} SearchedCounts(intents: seq<IntentInput>, threshold: real, primary: nat -> Reply,
                                          legacy: nat -> Reply, n: nat, asWritten: bool)
    requires n <= |intents|
    ensures var t := Searched(intents, threshold, primary, legacy, n, asWritten); t.high + t.low >= n
    decreases n
  {
    if n > 0 {
      SearchedCounts(intents, threshold, primary, legacy, n - 1, asWritten);
      ProcessCounts(Searched(intents, threshold, primary, legacy, n - 1, asWritten), intents[n - 1], threshold,
                    primary(n - 1), legacy(n - 1), asWritten);
    }
  }

  /** Over the first `n` hits, earlier items stay and every new one carries the intent's ConvID and raw text. */
  lemma {:induction false} ScanAppends(t: Tally, hits: seq<Hit>, n: nat, threshold: real, x: IntentInput, asWritten: bool)
    requires n <= |hits|
    ensures var s := ScanUpTo(t, hits, n, threshold, x, asWritten);
      && t.items <= s.tally.items
      && forall k :: |t.items| <= k < |s.tally.items| ==> s.tally.items[k].convId == x.convId && s.tally.items[k].intent == x.intent
    decreases n
  {
    if n > 0 {
      ScanAppends(t, hits, n - 1, threshold, x, asWritten);
    }
  }

  /** One pass only appends, and only items about its own intent. */
  lemma ProcessAppends(t: Tally, x: IntentInput, threshold: real, primary: Reply, legacy: Reply, asWritten: bool)
    ensures var r := Process(t, x, threshold, primary, legacy, asWritten);
      && t.items <= r.items
      && forall k :: |t.items| <= k < |r.items| ==> r.items[k].convId == x.convId && r.items[k].intent == x.intent
  {
    var reply := Consulted(primary, legacy);
    if !Skipped(x.intent) && reply.Response? && reply.ok && reply.json.Parsed? {
      var hits := HitsOf(reply.json.answer);
      ScanAppends(t, hits, |hits|, threshold, x, asWritten);
    }
  }

  /** An intent that is empty, unclear or a failure is not searched: one "Skipped" item scored 0. */
  lemma SkipRule(t: Tally, x: IntentInput, threshold: real, primary: Reply, legacy: Reply, asWritten: bool)
    requires Skipped(x.intent)
    ensures var r := Process(t, x, threshold, primary, legacy, asWritten);
      && r.items == t.items + [SkipItem(x)] && r.high == t.high && r.low == t.low + 1
      && SkipItem(x).score == Number(0.0) && SkipItem(x).category == Some("Skipped") && SkipItem(x).resultId.None?
  {
  }

  /** What is skipped: an intent whose trimmed text is empty, starts with "unclear" in any case, or starts with "ERROR:". */
  lemma SkippedCases(intent: string)
    ensures Trim(intent) == "" ==> Skipped(intent)
    ensures StartsWith(Lower(Trim(intent)), "unclear") ==> Skipped(intent)
    ensures StartsWith(Trim(intent), "ERROR:") ==> Skipped(intent)
    ensures Skipped(intent) ==> Trim(intent) == "" || StartsWith(Lower(Trim(intent)), "unclear") || StartsWith(Trim(intent), "ERROR:")
  {
  }

  /** The legacy endpoint is not consulted when the primary one rejects or answers ok. */
  lemma PrimaryDecides(t: Tally, x: IntentInput, threshold: real, primary: Reply, legacy: Reply, legacy': Reply, asWritten: bool)
    requires !(primary.Response? && !primary.ok)
    ensures Process(t, x, threshold, primary, legacy, asWritten) == Process(t, x, threshold, primary, legacy', asWritten)
  {
  }

  /** When both endpoints answer not-ok, one error item reports the legacy answer and the loop goes on. */
  lemma BothFail(t: Tally, x: IntentInput, threshold: real, primary: Reply, legacy: Reply, asWritten: bool)
    requires !Skipped(x.intent) && primary.Response? && !primary.ok && legacy.Response? && !legacy.ok
    ensures var r := Process(t, x, threshold, primary, legacy, asWritten);
      && r.high == t.high && r.low == t.low + 1
      && r.items == t.items + [ReviewItem(x.convId, x.intent, None, Null, None,
                                          "[ERROR] " + SearchFailed(legacy.status, legacy.statusText, legacy.text))]
  {
  }

  /** A search that returns no hits yields one "No Match Found" item scored 0. */
  lemma NoMatch(t: Tally, x: IntentInput, threshold: real, primary: Reply, legacy: Reply, asWritten: bool)
    requires !Skipped(x.intent)
    requires var reply := Consulted(primary, legacy); reply.Response? && reply.ok && reply.json.Parsed? && HitsOf(reply.json.answer) == []
    ensures var r := Process(t, x, threshold, primary, legacy, asWritten);
      r.items == t.items + [NoMatchItem(x)] && r.high == t.high && r.low == t.low + 1
  {
  }

  /**
   * The threshold is strict: a hit scored below it appends exactly the review item built from
   * the hit (`LowItemFields` says what that item holds) and counts one low-confidence match; a
   * hit scored at or above it only counts as high confidence.
   */
  lemma Threshold(t: Tally, h: Hit, threshold: real, x: IntentInput, asWritten: bool)
    requires ScoreOf(h).Number?
    ensures var s, v := ScanHit(t, h, threshold, x, asWritten), ScoreOf(h).value;
      && !s.threw
      && (v < threshold ==> s.tally.high == t.high && s.tally.low == t.low + 1 && |s.tally.items| == |t.items| + 1
                            && s.tally.items[..|t.items|] == t.items
                            && s.tally.items[|t.items|] == LowItem(x, h, v))
      && (v >= threshold ==> s.tally == t.(high := t.high + 1))
  {
    if ScoreOf(h).value < threshold {
      var items := ScanHit(t, h, threshold, x, asWritten).tally.items;
      assert items == t.items + [LowItem(x, h, ScoreOf(h).value)];
      assert items[..|t.items|] == t.items;
    }
  }

  /**
   * The review item of a low hit: the request's identifier and intent, the hit's id and score,
   * the metadata's non-empty title or "Unknown Category", and the first 400 characters of the
   * first non-empty of `article` and `text` (nothing when both are empty or absent).
   */
  lemma LowItemFields(x: IntentInput, h: Hit, score: real)
    ensures var item, m := LowItem(x, h, score), MetadataOf(h);
      && item.convId == x.convId && item.intent == x.intent
      && item.resultId == IdOf(h) && item.score == Number(score)
      && (m.Some? && m.value.title.Some? && m.value.title.value != "" ==> item.category == m.value.title)
      && (!(m.Some? && m.value.title.Some? && m.value.title.value != "") ==> item.category == Some("Unknown Category"))
      && (m.Some? && m.value.article.Some? && m.value.article.value != "" ==>
            item.articleChunk <= m.value.article.value && |item.articleChunk| == Min(400, |m.value.article.value|))
      && (m.Some? && !(m.value.article.Some? && m.value.article.value != "") && m.value.text.Some? ==>
            item.articleChunk <= m.value.text.value && |item.articleChunk| == Min(400, |m.value.text.value|))
      && (m.None? || (!(m.value.article.Some? && m.value.article.value != "") && m.value.text.None?) ==>
            item.articleChunk == "")
  {
  }

  /** Normalisation: a primary score of 0 falls through to `score`; `result.hits`, when present, wins even if empty. */
  lemma Normalisation(h: Hit, a: Answer)
    ensures !Truthy(h.primaryScore) ==> ScoreOf(h) == h.legacyScore
    ensures Truthy(h.primaryScore) ==> ScoreOf(h) == h.primaryScore
    ensures a.resultHits.Some? ==> HitsOf(a) == a.resultHits.value
    ensures a.resultHits.None? && a.matches.Some? ==> HitsOf(a) == a.matches.value
    ensures a.resultHits.None? && a.matches.None? ==> HitsOf(a) == []
  {
  }

  /** A hit with no score at all is never below the threshold, so it counts as high confidence. */
  lemma UnscoredIsHigh(t: Tally, h: Hit, threshold: real, x: IntentInput, asWritten: bool)
    requires ScoreOf(h).Undefined?
    ensures ScanHit(t, h, threshold, x, asWritten) == Scan(t.(high := t.high + 1), false)
  {
  }

  // ---------------------------------------------------------------- as written

  /**
   * As written, the counter is raised before `score.toFixed(4)` throws on a `null` score, and the
   * `catch` raises it again: one item, two low-confidence matches.
   */
  lemma NullScoreMiscounts()
    ensures var x := IntentInput(Str("c1"), "x");
      var h := Hit(Undefined, Null, None, None, None, None);
      var reply := Response(true, 200, "OK", "", Parsed(Answer(Some([h]), None)));
      var r := Process(Tally([], 0, 0), x, 0.8, reply, reply, true);
      |r.items| == 1 && r.low == 2
  {
    var x := IntentInput(Str("c1"), "x");
    assert Trim("x") == "x" by {
      assert !IsSpace('x');
    }
    assert !Skipped(x.intent);
  }

  /** The two orders differ only on hits whose score is `null`. */
  lemma {:induction false} AsWrittenAgrees(t: Tally, hits: seq<Hit>, n: nat, threshold: real, x: IntentInput)
    requires n <= |hits|
    requires forall k :: 0 <= k < |hits| ==> !ScoreOf(hits[k]).Null?
    ensures ScanUpTo(t, hits, n, threshold, x, true) == ScanUpTo(t, hits, n, threshold, x, false)
    decreases n
  {
    if n > 0 {
      AsWrittenAgrees(t, hits, n - 1, threshold, x);
    }
  }
}
