/**
 * The per-batch intent endpoint: request guards, the provider call (an oracle), the cleaning of
 * the provider's text, matching the parsed items back to the batch, and the degradation of the
 * whole batch to `ERROR:` entries on every failure path.
 */
module ExtractIntents {
  import opened Common
  import opened Js
  import opened Domain

  // ---------------------------------------------------------------- the request

  /** The largest batch the endpoint accepts. */
  const MaxBatchSize: nat := 25

  /** `apiConfig` as the client sends it; `openaiKey` is absent when `None`. */
  datatype ApiConfig = ApiConfig(demoMode: bool, openaiKey: Option<string>)

  /**
   * The JSON body: `conversations` is `None` when it is missing or not an array, `apiConfig` is
   * `None` when it is missing, and `hasConfig` says whether the `config` object is present.
   */
  datatype Request =
    | Unparsable(message: string)
    | Request(conversations: Option<seq<Conversation>>, hasConfig: bool, apiConfig: Option<ApiConfig>)

  // ---------------------------------------------------------------- what the provider answers

  /**
   * `errorJson.error.message` when `error` is an object: `null` or absent, a string, or any
   * other value (one without an `includes` method, so that calling it throws).
   */
  datatype MessageField = NoMessage | MessageText(text: string) | MessageOther

  /**
   * `errorJson.error`: absent or falsy, a string, an object, or any other truthy value (a
   * number, say), which has no `message` and no `substring`.
   */
  datatype ErrorField = NoError | ErrorText(text: string) | ErrorObject(message: MessageField) | ErrorOther

  /** `JSON.parse` of an error body: `null`, or a value whose `error` field is described. */
  datatype ErrorJson = JsonNull | JsonValue(error: ErrorField)

  /** `openaiResult.choices?.[0]?.message?.content`. */
  datatype Content = NoContent | ContentText(text: string) | ContentOther

  /**
   * The provider call as an oracle: the fetch rejects, the response is not ok (status, raw text,
   * and `JSON.parse` of that text, `None` when it is not JSON), or it is ok (reading its JSON
   * body may reject).
   */
  datatype ProviderReply =
    | FetchThrew(message: string)
    | NotOk(status: int, body: string, json: Option<ErrorJson>)
    | BodyThrew(message: string)
    | Answer(content: Content)

  /** An element of the parsed array: `null`, or an object with the two fields read. */
  datatype Item = NullItem | Entry(convId: Option<ConvId>, intent: string)

  /** `JSON.parse(cleanedContent)`: throws, yields a non-array, or yields an array. */
  datatype Parsed = NotJson | NonArray | Items(items: seq<Item>)

  // ---------------------------------------------------------------- what the endpoint answers

  /** `{intents, totalProcessed, successfulExtractions, unclearIntents, errorCount, sample}`. */
  datatype BatchResult = BatchResult(intents: seq<IntentRecord>, successful: nat, unclear: nat, errors: nat)
  {
    function TotalProcessed(): nat {
      |intents|
    }

    function Sample(): seq<IntentRecord> {
      Take(intents, 3)
    }
  }

  datatype Outcome =
    | Rejected(status: nat, error: string)
    | PermissionDenied(details: string, providerStatus: int)
    | Completed(success: bool, failure: Option<string>, result: BatchResult)

  function HttpStatus(o: Outcome): nat {
    match o
    case Rejected(status, _) => status
    case PermissionDenied(_, _) => 403
    case Completed(_, _, _) => 200
  }

  // ---------------------------------------------------------------- guards

  /** The credential checks of the real mode: `None` when the key may be used. */
  function KeyProblem(key: Option<string>): (r: Option<string>)
    ensures r.None? <==> key.Some? && key.value != "" && key.value != "demo-mode" && StartsWith(key.value, "sk-")
  {
    if key.None? || key.value == "" || key.value == "demo-mode" then
      Some("OpenAI API key is not configured. Please go back and configure your API keys.")
    else if !StartsWith(key.value, "sk-") then
      Some("Invalid OpenAI API key format. Key should start with 'sk-'")
    else None
  }

  // ---------------------------------------------------------------- the cleaner

  /** Removes code fences: `` ```json\n `` and `` \n``` `` when `` ```json `` occurs, else `` ```\n `` and `` \n``` ``. */
  function StripFences(content: string): (r: string)
    ensures |r| <= |content|
    ensures !Contains(content, "```") ==> r == content
  {
    if Contains(content, "```json") then
      assert "```" + "json" == "```json";
      ContainsPrefix(content, "```", "json");
      RemoveEither(content, "```json\n", "\n```")
    else if Contains(content, "```") then RemoveEither(content, "```\n", "\n```")
    else content
  }

  /** From the first `[` to the last `]`, when the first precedes the last. */
  function CutBrackets(s: string): (r: string)
    ensures var i, j := FirstIndex(s, '['), LastIndex(s, ']');
      if 0 <= i < j then r == s[i..j + 1] && r[0] == '[' && r[|r| - 1] == ']' else r == s
  {
    var i := FirstIndex(s, '[');
    var j := LastIndex(s, ']') + 1;
    if i >= 0 && j > i then s[i..j] else s
  }

  function Clean(content: string): string {
    CutBrackets(StripFences(content))
  }

  /** The cut keeps the span from the first `[` to the last `]`, and nothing after it holds a `]`. */
  lemma CutSpan(s: string)
    requires 0 <= FirstIndex(s, '[') < LastIndex(s, ']')
    ensures var r := CutBrackets(s); OccursAt(s, r, FirstIndex(s, '['))
    ensures ']' !in s[FirstIndex(s, '[') + |CutBrackets(s)|..]
  {
    var i, j := FirstIndex(s, '['), LastIndex(s, ']');
    assert i + |CutBrackets(s)| == j + 1;
    assert forall q :: j < q < |s| ==> s[q] != ']';
  }

  /**
   * When the de-fenced text has a `[` before its last `]`, the cleaner keeps exactly the span from
   * the first `[` to the last `]`: it begins with `[`, ends with `]`, and occurs in that text.
   */
  lemma CleanBrackets(content: string)
    requires var s := StripFences(content); 0 <= FirstIndex(s, '[') < LastIndex(s, ']')
    ensures var r := Clean(content); |r| >= 2 && r[0] == '[' && r[|r| - 1] == ']'
    ensures var s, r := StripFences(content), Clean(content); OccursAt(s, r, FirstIndex(s, '['))
    ensures var s, r := StripFences(content), Clean(content); ']' !in s[FirstIndex(s, '[') + |r|..]
  {
    CutSpan(StripFences(content));
  }

  /** A fenced answer loses its fences before the bracket cut. */
  lemma FencedClean(body: string)
    requires '`' !in body
    ensures Clean("```json\n" + body + "\n```") == CutBrackets(body)
  {
    FencedJson(body);
  }

  /** An answer fenced as a `json` code block, with no backquote inside, is unwrapped exactly. */
  lemma FencedJson(body: string)
    requires '`' !in body
    ensures StripFences("```json\n" + body + "\n```") == body
  {
    var a, b := "```json\n", "\n```";
    var content := a + body + b;
    assert content[..7] == "```json";
    ContainsAt(content, "```json", 0);
    assert a <= content && content[|a|..] == body + b;
    RemoveEitherFirst(content, a, b);
    UnfencedBody(body);
  }

  lemma {:induction false} UnfencedBody(body: string)
    requires '`' !in body
    ensures RemoveEither(body + "\n```", "```json\n", "\n```") == body
    decreases |body|
  {
    var a, b := "```json\n", "\n```";
    var s := body + b;
    if body == [] {
      assert s == b && !(a <= b) && b[|b|..] == [];
      RemoveEitherSecond(b, a, b);
    } else {
      assert s[0] == body[0] != '`';
      assert s[1] != '`' by {
        if |body| >= 2 { assert s[1] == body[1]; } else { assert s[1] == b[0]; }
      }
      RemoveEitherKeeps(s, a, b);
      assert s[1..] == body[1..] + b;
      UnfencedBody(body[1..]);
      assert [body[0]] + body[1..] == body;
    }
  }

  /** Text with no bracket span is only stripped of its fences. */
  lemma CleanNoSpan(content: string)
    requires var s := StripFences(content); FirstIndex(s, '[') < 0 || LastIndex(s, ']') <= FirstIndex(s, '[')
    ensures Clean(content) == StripFences(content)
  {
  }

  // ---------------------------------------------------------------- entries

  /** The entry the endpoint writes for a batch conversation. */
  function RecordFor(c: Conversation, intent: string): IntentRecord {
    IntentRecord(c.convId, c.date, Preview(c.text), intent)
  }

  /** One entry with the same intent per batch conversation, in batch order. */
  function ErrorEntries(batch: seq<Conversation>, intent: string): (r: seq<IntentRecord>)
    ensures |r| == |batch|
    decreases |batch|
  {
    if batch == [] then [] else [RecordFor(batch[0], intent)] + ErrorEntries(batch[1..], intent)
  }

  /** Entry `k` is the record of conversation `k`. */
  lemma {:induction false} ErrorEntriesEach(batch: seq<Conversation>, intent: string)
    ensures forall k :: 0 <= k < |batch| ==> ErrorEntries(batch, intent)[k] == RecordFor(batch[k], intent)
    decreases |batch|
  {
    if batch != [] {
      ErrorEntriesEach(batch[1..], intent);
    }
  }

  /** `conversations.forEach(conv => { results.push({... Intent: intent}); errorCount++ })`. */
  method DegradeBatch(batch: seq<Conversation>, intent: string) returns (results: seq<IntentRecord>, errorCount: nat)
    ensures results == ErrorEntries(batch, intent)
    ensures errorCount == |batch|
  {
    results := [];
    errorCount := 0;
    var k := 0;
    while k < |batch|
      invariant 0 <= k <= |batch|
      invariant |results| == k && errorCount == k
      invariant forall m :: 0 <= m < k ==> results[m] == RecordFor(batch[m], intent)
    {
      results := results + [RecordFor(batch[k], intent)];
      errorCount := errorCount + 1;
      k := k + 1;
    }
    ErrorEntriesEach(batch, intent);
  }

  /** A failed batch: every conversation gets the one error intent. */
  function Degraded(batch: seq<Conversation>, intent: string): BatchResult {
    BatchResult(ErrorEntries(batch, intent), 0, 0, |batch|)
  }

  // ---------------------------------------------------------------- matching

  /** `conversations.find(conv => conv.ConvID === id)`. */
  function Find(batch: seq<Conversation>, id: ConvId): (r: Option<Conversation>)
    ensures r.Some? ==> r.value in batch && r.value.convId == id
    ensures r.None? <==> forall k :: 0 <= k < |batch| ==> batch[k].convId != id
  {
    if batch == [] then None
    else if batch[0].convId == id then Some(batch[0])
    else Find(batch[1..], id)
  }

  /** `find` returns the first conversation with the identifier. */
  lemma {:induction false} FindFirst(batch: seq<Conversation>, id: ConvId)
    requires Find(batch, id).Some?
    ensures exists k :: (0 <= k < |batch| && batch[k] == Find(batch, id).value
                         && forall m :: 0 <= m < k ==> batch[m].convId != id)
  {
    if batch[0].convId != id {
      FindFirst(batch[1..], id);
      var k :| 0 <= k < |batch[1..]| && batch[1..][k] == Find(batch, id).value
        && forall m :: 0 <= m < k ==> batch[1..][m].convId != id;
      assert batch[k + 1] == Find(batch, id).value;
      forall m | 0 <= m < k + 1 ensures batch[m].convId != id {
        if m > 0 {
          assert batch[m] == batch[1..][m - 1];
        }
      }
    } else {
      assert batch[0] == Find(batch, id).value;
    }
  }

  /** `intent.toLowerCase()` mentions "unclear" or "unknown". */
  predicate IsUnclear(intent: string) {
    Contains(Lower(intent), "unclear") || Contains(Lower(intent), "unknown")
  }

  /** An item is kept when its identifier is strictly equal to a batch conversation's and its intent is non-empty. */
  predicate Keeps(batch: seq<Conversation>, item: Item)
    requires item.Entry?
  {
    item.convId.Some? && Find(batch, item.convId.value).Some? && item.intent != ""
  }

  /** The entry for a kept item: the item's identifier and intent, the matched conversation's date and preview. */
  function KeptRecord(batch: seq<Conversation>, item: Item): IntentRecord
    requires item.Entry? && Keeps(batch, item)
  {
    var c := Find(batch, item.convId.value).value;
    IntentRecord(item.convId.value, c.date, Preview(c.text), item.intent)
  }

  /**
   * The `forEach` over the parsed array: the entries and tallies so far, and whether an element
   * made it throw (a `null` element, whose `ConvID` is read as soon as the batch is non-empty).
   */
  datatype Matched = Matched(records: seq<IntentRecord>, successful: nat, unclear: nat, threw: bool)

  function Match(batch: seq<Conversation>, items: seq<Item>): (m: Matched)
    ensures m.successful + m.unclear == |m.records| <= |items|
  {
    if items == [] then Matched([], 0, 0, false)
    else
      var item := items[0];
      if item.NullItem? then
        if batch == [] then Match(batch, items[1..]) else Matched([], 0, 0, true)
      else
        var rest := Match(batch, items[1..]);
        if Keeps(batch, item) then
          var r := KeptRecord(batch, item);
          if IsUnclear(item.intent) then Matched([r] + rest.records, rest.successful, rest.unclear + 1, rest.threw)
          else Matched([r] + rest.records, rest.successful + 1, rest.unclear, rest.threw)
        else rest
  }

  /** The loop over the parsed items, with its running tallies. */
  method MatchItems(batch: seq<Conversation>, items: seq<Item>) returns (m: Matched)
    ensures m == Match(batch, items)
  {
    var results: seq<IntentRecord> := [];
    var successful, unclear := 0, 0;
    var k := 0;
    assert items[k..] == items;
    while k < |items|
      invariant 0 <= k <= |items|
      invariant Match(batch, items) == Prepend(results, successful, unclear, Match(batch, items[k..]))
    {
      var item := items[k];
      ghost var rest := Match(batch, items[k + 1..]);
      assert items[k..][0] == item && items[k..][1..] == items[k + 1..];
      if item.NullItem? && batch != [] {
        assert Match(batch, items[k..]) == Matched([], 0, 0, true);
        m := Matched(results, successful, unclear, true);
        return;
      }
      if item.Entry? && item.convId.Some? && Find(batch, item.convId.value).Some? && item.intent != "" {
        var found := Find(batch, item.convId.value);
        var r := IntentRecord(item.convId.value, found.value.date, Preview(found.value.text), item.intent);
        assert r == KeptRecord(batch, item);
        if IsUnclear(item.intent) {
          assert Match(batch, items[k..]) == Prepend([r], 0, 1, rest);
          PrependTwice(results, successful, unclear, [r], 0, 1, rest);
          unclear := unclear + 1;
        } else {
          assert Match(batch, items[k..]) == Prepend([r], 1, 0, rest);
          PrependTwice(results, successful, unclear, [r], 1, 0, rest);
          successful := successful + 1;
        }
        results := results + [r];
      } else {
        assert Match(batch, items[k..]) == rest;
      }
      k := k + 1;
    }
    assert items[k..] == [];
    m := Matched(results, successful, unclear, false);
  }

  /** The result of the items before those of `m`. */
  function Prepend(records: seq<IntentRecord>, successful: nat, unclear: nat, m: Matched): Matched {
    Matched(records + m.records, successful + m.successful, unclear + m.unclear, m.threw)
  }

  lemma PrependTwice(records: seq<IntentRecord>, successful: nat, unclear: nat,
                     records': seq<IntentRecord>, successful': nat, unclear': nat, m: Matched)
    ensures Prepend(records, successful, unclear, Prepend(records', successful', unclear', m))
         == Prepend(records + records', successful + successful', unclear + unclear', m)
  {
    assert records + (records' + m.records) == records + records' + m.records;
  }

  // ---------------------------------------------------------------- a non-ok answer from the provider

  /** `parsedError`: a string, or a non-string value (whose `substring` then throws). */
  datatype ParsedError = ErrorString(text: string) | ErrorNonString

  /** What a non-ok answer leads to. */
  datatype Failure = Permission(details: string) | ApiError(parsedError: ParsedError)

  /** `errorJson.error?.message?.includes(text)`. */
  predicate MessageIncludes(e: ErrorField, text: string) {
    e.ErrorObject? && e.message.MessageText? && Contains(e.message.text, text)
  }

  /** `errorJson.error?.message || errorJson.error || errorData`. */
  function ParsedErrorOf(e: ErrorField, body: string): ParsedError {
    match e
    case ErrorObject(MessageText(m)) => if m != "" then ErrorString(m) else ErrorNonString
    case ErrorObject(_) => ErrorNonString
    case ErrorOther => ErrorNonString
    case ErrorText(s) => if s != "" then ErrorString(s) else ErrorString(body)
    case NoError => ErrorString(body)
  }

  /**
   * The permission check runs only inside the `try` that parsed the body: a body that is not
   * JSON, is `null`, or whose message is not a string (so that `includes` throws) never counts.
   */
  function NotOkFailure(status: int, body: string, json: Option<ErrorJson>): Failure {
    match json
    case None => ApiError(ErrorString(body))
    case Some(JsonNull) => ApiError(ErrorString(body))
    case Some(JsonValue(e)) =>
      if e.ErrorObject? && e.message.MessageOther? then ApiError(ErrorNonString)
      else if MessageIncludes(e, "insufficient permissions") || MessageIncludes(e, "model.request") || status == 401 then
        Permission(if e.ErrorObject? && e.message.MessageText? && e.message.text != "" then e.message.text
                   else "Missing required scopes or insufficient permissions")
      else ApiError(ParsedErrorOf(e, body))
  }

  /** The permission predicate, stated on its own. */
  predicate IsPermissionError(status: int, json: Option<ErrorJson>) {
    json.Some? && json.value.JsonValue? && !(json.value.error.ErrorObject? && json.value.error.message.MessageOther?)
    && (MessageIncludes(json.value.error, "insufficient permissions")
        || MessageIncludes(json.value.error, "model.request") || status == 401)
  }

  lemma PermissionIff(status: int, body: string, json: Option<ErrorJson>)
    ensures NotOkFailure(status, body, json).Permission? <==> IsPermissionError(status, json)
  {
  }

  // ---------------------------------------------------------------- the whole endpoint

  /** The `error` of a 403 answer (its `details` carry the provider's message). */
  const PermissionMessage: string :=
    "OpenAI API key permission error: Your API key doesn't have the necessary permissions to use this model."

  const NoResponseIntent: string := "ERROR: No response from AI"
  const ParseFailureIntent: string := "ERROR: Failed to parse AI response"
  const SubstringTypeError: string := "parsedError.substring is not a function"
  const ConfigTypeError: string := "Cannot read properties of undefined (reading 'model')"

  /** `ERROR: ${batchError.message}`. */
  function ThrownIntent(message: string): string {
    "ERROR: " + message
  }

  function ApiErrorIntent(status: int, parsedError: string): string {
    "ERROR: API call failed - " + IntToString(status) + " - " + Take(parsedError, 100)
  }

  /** The demo mode's canned intents; `pick` stands for `Math.floor(Math.random() * 5)`. */
  const DemoIntents: seq<string> :=
    ["reset my password", "update my profile", "cancel my subscription", "contact support", "change my email"]

  type Pick = p: nat | p < 5

  function DemoResult(batch: seq<Conversation>, pick: nat -> Pick): BatchResult {
    var intents := seq(|batch|, k requires 0 <= k < |batch| =>
      RecordFor(batch[k], "Mock intent: How do I " + DemoIntents[pick(k)] + "?"));
    BatchResult(intents, |batch|, 0, 0)
  }

  /** What the provider's answer makes of a batch that passed the guards. */
  function Answered(batch: seq<Conversation>, reply: ProviderReply, parse: string -> Parsed): Outcome {
    match reply
    case FetchThrew(msg) => Completed(true, None, Degraded(batch, ThrownIntent(msg)))
    case BodyThrew(msg) => Completed(true, None, Degraded(batch, ThrownIntent(msg)))
    case NotOk(status, body, json) =>
      (match NotOkFailure(status, body, json)
       case Permission(details) => PermissionDenied(details, status)
       case ApiError(ErrorNonString) => Completed(true, None, Degraded(batch, ThrownIntent(SubstringTypeError)))
       case ApiError(ErrorString(pe)) =>
         Completed(false, Some("OpenAI API error: " + IntToString(status) + " - " + Take(pe, 200)),
                   Degraded(batch, ApiErrorIntent(status, pe))))
    case Answer(NoContent) => Completed(true, None, Degraded(batch, NoResponseIntent))
    case Answer(ContentText("")) => Completed(true, None, Degraded(batch, NoResponseIntent))
    case Answer(ContentOther) => Completed(true, None, Degraded(batch, ParseFailureIntent))
    case Answer(ContentText(c)) =>
      match parse(Clean(c))
      case NotJson => Completed(true, None, Degraded(batch, ParseFailureIntent))
      case NonArray => Completed(true, None, Degraded(batch, ParseFailureIntent))
      case Items(items) =>
        var m := Match(batch, items);
        if m.threw then
          Completed(true, None, BatchResult(m.records + ErrorEntries(batch, ParseFailureIntent), m.successful, m.unclear, |batch|))
        else Completed(true, None, BatchResult(m.records, m.successful, m.unclear, 0))
  }

  const InvalidConversations: string := "Invalid conversations data"

  /** The message of an oversized batch, which names its size. */
  function BatchTooLarge(n: nat): string {
    "Batch too large. Maximum 25 conversations per request. Received " + NatToString(n) + "."
  }

  /**
   * The checks before the provider is asked: a body that is not JSON, a missing or oversized
   * batch, demo mode, a missing or malformed key and a missing `config` each answer at once.
   * `None` lets the batch through.
   */
  function Guard(req: Request, pick: nat -> Pick): (r: Option<Outcome>)
    ensures r.None? <==> && req.Request? && req.conversations.Some? && |req.conversations.value| <= MaxBatchSize
                         && !(req.apiConfig.Some? && req.apiConfig.value.demoMode) && req.hasConfig
                         && KeyProblem(if req.apiConfig.Some? then req.apiConfig.value.openaiKey else None).None?
  {
    match req
    case Unparsable(msg) => Some(Rejected(500, msg))
    case Request(convs, hasConfig, api) =>
      if convs.None? then Some(Rejected(400, InvalidConversations))
      else if |convs.value| > MaxBatchSize then Some(Rejected(400, BatchTooLarge(|convs.value|)))
      else if api.Some? && api.value.demoMode then Some(Completed(true, None, DemoResult(convs.value, pick)))
      else
        var key := if api.Some? then api.value.openaiKey else None;
        match KeyProblem(key)
        case Some(problem) => Some(Rejected(500, problem))
        case None =>
          if !hasConfig then Some(Rejected(500, ConfigTypeError)) else None
  }

  /**
   * The POST handler. `reply` is what the provider answers to this batch and `parse` is
   * `JSON.parse` of the cleaned text; a missing `config` makes the batch fail inside the
   * `try` and the final message's `config.model` throw again outside it.
   */
  function Extract(req: Request, reply: ProviderReply, parse: string -> Parsed, pick: nat -> Pick): Outcome {
    match Guard(req, pick)
    case Some(early) => early
    case None => Answered(req.conversations.value, reply, parse)
  }

  /** The handler with the endpoint's `forEach` loops. */
  method ExtractBatch(req: Request, reply: ProviderReply, parse: string -> Parsed, pick: nat -> Pick)
    returns (o: Outcome)
    ensures o == Extract(req, reply, parse, pick)
  {
    var early := CheckRequest(req, pick);
    if early.Some? {
      return early.value;
    }
    o := AnswerBatch(req.conversations.value, reply, parse);
  }

  /** The guards of the handler, in the order it runs them. */
  method CheckRequest(req: Request, pick: nat -> Pick) returns (early: Option<Outcome>)
    ensures early == Guard(req, pick)
  {
    match req {
      case Unparsable(msg) =>
        return Some(Rejected(500, msg));
      case Request(convs, hasConfig, api) =>
        if convs.None? {
          return Some(Rejected(400, InvalidConversations));
        }
        var batch := convs.value;
        if |batch| > MaxBatchSize {
          return Some(Rejected(400, BatchTooLarge(|batch|)));
        }
        if api.Some? && api.value.demoMode {
          return Some(Completed(true, None, DemoResult(batch, pick)));
        }
        var problem := KeyProblem(if api.Some? then api.value.openaiKey else None);
        if problem.Some? {
          return Some(Rejected(500, problem.value));
        }
        if !hasConfig {
          return Some(Rejected(500, ConfigTypeError));
        }
        return None;
    }
  }

  /** The part of the handler after the guards, with the loops written out. */
  method AnswerBatch(batch: seq<Conversation>, reply: ProviderReply, parse: string -> Parsed) returns (o: Outcome)
    ensures o == Answered(batch, reply, parse)
  {
    var failIntent: string;
    match reply {
      case FetchThrew(msg) =>
        failIntent := ThrownIntent(msg);
      case BodyThrew(msg) =>
        failIntent := ThrownIntent(msg);
      case NotOk(status, body, json) =>
        match NotOkFailure(status, body, json) {
          case Permission(details) =>
            return PermissionDenied(details, status);
          case ApiError(ErrorNonString) =>
            failIntent := ThrownIntent(SubstringTypeError);
          case ApiError(ErrorString(pe)) =>
            var results, errorCount := DegradeBatch(batch, ApiErrorIntent(status, pe));
            return Completed(false, Some("OpenAI API error: " + IntToString(status) + " - " + Take(pe, 200)),
                             BatchResult(results, 0, 0, errorCount));
        }
      case Answer(content) =>
        if content.NoContent? || content == ContentText("") {
          failIntent := NoResponseIntent;
        } else if content.ContentOther? {
          failIntent := ParseFailureIntent;
        } else {
          match parse(Clean(content.text)) {
            case NotJson =>
              failIntent := ParseFailureIntent;
            case NonArray =>
              failIntent := ParseFailureIntent;
            case Items(items) =>
              var m := MatchItems(batch, items);
              if m.threw {
                var errors, errorCount := DegradeBatch(batch, ParseFailureIntent);
                return Completed(true, None, BatchResult(m.records + errors, m.successful, m.unclear, errorCount));
              }
              return Completed(true, None, BatchResult(m.records, m.successful, m.unclear, 0));
          }
        }
    }
    var results, errorCount := DegradeBatch(batch, failIntent);
    o := Completed(true, None, BatchResult(results, 0, 0, errorCount));
  }

  // ---------------------------------------------------------------- properties

  /** Every completed batch reconciles: totalProcessed = successful + unclear + errorCount. */
  lemma Reconciles(req: Request, reply: ProviderReply, parse: string -> Parsed, pick: nat -> Pick)
    ensures var o := Extract(req, reply, parse, pick);
      o.Completed? ==> o.result.TotalProcessed() == o.result.successful + o.result.unclear + o.result.errors
  {
  }

  /** The guards reject before the provider is asked anything. */
  lemma GuardsFirst(req: Request, reply1: ProviderReply, reply2: ProviderReply, parse: string -> Parsed, pick: nat -> Pick)
    requires req.Request?
    requires req.conversations.None? || |req.conversations.value| > MaxBatchSize
      || (KeyProblem(req.apiConfig.GetOr(ApiConfig(false, None)).openaiKey).Some? && !(req.apiConfig.Some? && req.apiConfig.value.demoMode))
    ensures Extract(req, reply1, parse, pick) == Extract(req, reply2, parse, pick)
    ensures Extract(req, reply1, parse, pick).Rejected?
  {
  }

  /**
   * On every failure path that is not a permission error, each batch conversation gets exactly
   * one `ERROR:` entry, in batch order, and the error count is the batch size.
   */
  lemma FailuresDegrade(batch: seq<Conversation>, reply: ProviderReply, parse: string -> Parsed)
    requires || reply.FetchThrew? || reply.BodyThrew?
             || (reply.Answer? && !reply.content.ContentText?)
             || (reply.Answer? && reply.content.ContentText?
                 && (reply.content.text == "" || !parse(Clean(reply.content.text)).Items?))
             || (reply.NotOk? && !IsPermissionError(reply.status, reply.json))
    ensures var o := Answered(batch, reply, parse);
      && o.Completed? && o.result.errors == |batch| && |o.result.intents| == |batch|
      && o.result.successful == 0 && o.result.unclear == 0
      && forall k :: 0 <= k < |batch| ==>
           o.result.intents[k].convId == batch[k].convId && o.result.intents[k].date == batch[k].date
           && IsErrorIntent(o.result.intents[k].intent)
  {
    match reply {
      case FetchThrew(msg) => ErrorEntriesEach(batch, ThrownIntent(msg));
      case BodyThrew(msg) => ErrorEntriesEach(batch, ThrownIntent(msg));
      case NotOk(status, body, json) =>
        PermissionIff(status, body, json);
        var f := NotOkFailure(status, body, json);
        if f.ApiError? && f.parsedError.ErrorString? {
          ErrorEntriesEach(batch, ApiErrorIntent(status, f.parsedError.text));
        } else {
          ErrorEntriesEach(batch, ThrownIntent(SubstringTypeError));
        }
      case Answer(_) =>
        ErrorEntriesEach(batch, NoResponseIntent);
        ErrorEntriesEach(batch, ParseFailureIntent);
    }
  }

  /** A permission error answers 403 with no intents. */
  lemma PermissionAnswer(batch: seq<Conversation>, reply: ProviderReply, parse: string -> Parsed)
    requires reply.NotOk? && IsPermissionError(reply.status, reply.json)
    ensures Answered(batch, reply, parse).PermissionDenied?
    ensures HttpStatus(Answered(batch, reply, parse)) == 403
  {
    PermissionIff(reply.status, reply.body, reply.json);
  }

  /** When every parsed element is an object, the loop never throws. */
  lemma {:induction false} MatchNoThrow(batch: seq<Conversation>, items: seq<Item>)
    requires forall k :: 0 <= k < |items| ==> items[k].Entry?
    ensures !Match(batch, items).threw
  {
    if items != [] {
      assert items[0].Entry?;
      MatchNoThrow(batch, items[1..]);
    }
  }

  /** The records of the kept items, one per kept item, in the items' order. */
  function KeptRecords(batch: seq<Conversation>, items: seq<Item>): seq<IntentRecord> {
    if items == [] then []
    else if items[0].Entry? && Keeps(batch, items[0]) then [KeptRecord(batch, items[0])] + KeptRecords(batch, items[1..])
    else KeptRecords(batch, items[1..])
  }

  /** How many items are kept. */
  function KeptCount(batch: seq<Conversation>, items: seq<Item>): nat {
    if items == [] then 0
    else (if items[0].Entry? && Keeps(batch, items[0]) then 1 else 0) + KeptCount(batch, items[1..])
  }

  /**
   * When every parsed element is an object, the matched entries are the records of the kept
   * items, one per kept item and in the items' order, and nothing else.
   */
  lemma MatchRecords(batch: seq<Conversation>, items: seq<Item>)
    requires forall k :: 0 <= k < |items| ==> items[k].Entry?
    ensures Match(batch, items).records == KeptRecords(batch, items)
    ensures |Match(batch, items).records| == KeptCount(batch, items)
    ensures forall r :: r in Match(batch, items).records <==>
      exists k :: 0 <= k < |items| && Keeps(batch, items[k]) && r == KeptRecord(batch, items[k])
  {
    MatchKept(batch, items);
    KeptRecordsCount(batch, items);
    KeptRecordsMembers(batch, items);
  }

  lemma {:induction false} MatchKept(batch: seq<Conversation>, items: seq<Item>)
    requires forall k :: 0 <= k < |items| ==> items[k].Entry?
    ensures Match(batch, items).records == KeptRecords(batch, items)
  {
    if items != [] {
      assert items[0].Entry?;
      MatchKept(batch, items[1..]);
    }
  }

  lemma {:induction false} KeptRecordsCount(batch: seq<Conversation>, items: seq<Item>)
    ensures |KeptRecords(batch, items)| == KeptCount(batch, items)
  {
    if items != [] {
      KeptRecordsCount(batch, items[1..]);
    }
  }

  lemma {:induction false} KeptRecordsMembers(batch: seq<Conversation>, items: seq<Item>)
    requires forall k :: 0 <= k < |items| ==> items[k].Entry?
    ensures forall r :: r in KeptRecords(batch, items) <==>
      exists k :: 0 <= k < |items| && Keeps(batch, items[k]) && r == KeptRecord(batch, items[k])
  {
    if items != [] {
      assert items[0].Entry?;
      KeptRecordsMembers(batch, items[1..]);
      var m, rest := KeptRecords(batch, items), KeptRecords(batch, items[1..]);
      assert m == (if Keeps(batch, items[0]) then [KeptRecord(batch, items[0])] + rest else rest);
      forall r | r in m
        ensures exists k :: 0 <= k < |items| && Keeps(batch, items[k]) && r == KeptRecord(batch, items[k])
      {
        if Keeps(batch, items[0]) && r == KeptRecord(batch, items[0]) {
        } else {
          assert r in rest;
          var k :| 0 <= k < |items[1..]| && Keeps(batch, items[1..][k]) && r == KeptRecord(batch, items[1..][k]);
          assert items[k + 1] == items[1..][k];
        }
      }
      forall r | exists k :: 0 <= k < |items| && Keeps(batch, items[k]) && r == KeptRecord(batch, items[k])
        ensures r in m
      {
        var k :| 0 <= k < |items| && Keeps(batch, items[k]) && r == KeptRecord(batch, items[k]);
        if k > 0 {
          assert items[1..][k - 1] == items[k];
        }
      }
    }
  }

  /** The unclear tally counts the matched entries whose intent mentions "unclear" or "unknown". */
  lemma {:induction false} MatchUnclear(batch: seq<Conversation>, items: seq<Item>)
    ensures Match(batch, items).unclear == CountUnclear(Match(batch, items).records)
  {
    if items != [] && !(items[0].NullItem? && batch != []) {
      MatchUnclear(batch, items[1..]);
      var m, rest := Match(batch, items), Match(batch, items[1..]);
      if items[0].Entry? && Keeps(batch, items[0]) {
        assert m.records[0] == KeptRecord(batch, items[0]);
        assert m.records[1..] == rest.records;
      }
    }
  }

  /** The number of entries whose intent counts as unclear. */
  function CountUnclear(rs: seq<IntentRecord>): nat {
    if rs == [] then 0 else (if IsUnclear(rs[0].intent) then 1 else 0) + CountUnclear(rs[1..])
  }

  /** A kept entry takes the date of the first batch conversation with its identifier. */
  lemma KeptDate(batch: seq<Conversation>, item: Item)
    requires item.Entry? && Keeps(batch, item)
    ensures exists k :: (0 <= k < |batch| && batch[k].convId == item.convId.value
                         && KeptRecord(batch, item).date == batch[k].date
                         && forall m :: 0 <= m < k ==> batch[m].convId != item.convId.value)
  {
    FindFirst(batch, item.convId.value);
  }

  /** Identifiers match strictly: the number 1 and the string "1" are different. */
  lemma StrictMatch(c: Conversation, n: int)
    requires c.convId == Num(n)
    ensures Find([c], Str(IntToString(n))).None?
  {
  }
}
