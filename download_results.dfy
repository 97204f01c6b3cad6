/**
 * The download route: the search results as a CSV file (a header line, then one line per review
 * item, three of the six fields quoted) or, for any other format, as JSON.
 */
module DownloadResults {
  import opened Common
  import opened Js
  import opened Domain
  import opened Csv
  import opened VectorSearch

  /**
   * What the route answers: the CSV text, the results to serialise as JSON (`JSON.stringify` is not
   * modelled), or the failure of a CSV request whose results have no review items to map.
   */
  datatype Download<R> = CsvFile(content: string) | JsonFile(results: R) | Failed(status: nat, error: string)

  const Header: seq<Cell> :=
    [Plain("ConvID"), Plain("Intent"), Plain("ResultID"), Plain("Score"), Plain("Category"), Plain("ArticleChunk")]

  /** `item.ResultID || ""`. */
  function ResultText(id: Option<string>): string {
    if id.Some? then id.value else ""
  }

  /** `item.Score || ""`, where `show` is how JavaScript writes a number. */
  function ScoreText(score: JsNumber, show: real -> string): string {
    if Truthy(score) then show(score.value) else ""
  }

  /** `item.Category || ""`. */
  function CategoryText(category: Option<string>): string {
    if category.Some? then category.value else ""
  }

  /** ConvID, ResultID and Score verbatim; Intent, Category and ArticleChunk quoted with inner quotes doubled. */
  function ItemRow(item: ReviewItem, show: real -> string): seq<Cell> {
    [Plain(ConvIdText(item.convId)), Quoted(item.intent), Plain(ResultText(item.resultId)),
     Plain(ScoreText(item.score, show)), Quoted(CategoryText(item.category)), Quoted(item.articleChunk)]
  }

  function ItemRows(items: seq<ReviewItem>, show: real -> string): (rows: seq<seq<Cell>>)
    ensures |rows| == |items|
    ensures forall j :: 0 <= j < |items| ==> rows[j] == ItemRow(items[j], show)
  {
    if items == [] then [] else [ItemRow(items[0], show)] + ItemRows(items[1..], show)
  }

  /**
   * The POST handler, for the `results` and `format` of the request; `reviewItems` is
   * `results.reviewItems`, `None` when the results have none (mapping over it then throws).
   */
  function Respond<R>(results: R, reviewItems: Option<seq<ReviewItem>>, format: string, show: real -> string): Download<R> {
    if format != "csv" then JsonFile(results)
    else if reviewItems.None? then Failed(500, "Download failed")
    else CsvFile(RenderTable([Header] + ItemRows(reviewItems.value, show)))
  }

  /** The review items of what the search route answered (the demo branch is not modelled). */
  function ItemsOf(o: Outcome): (items: Option<seq<ReviewItem>>)
    ensures items.Some? <==> o.Results?
  {
    if o.Results? then Some(o.reviewItems) else None
  }

  // ---------------------------------------------------------------- properties

  /**
   * Any format but "csv" answers the results themselves as JSON; a CSV request fails with status
   * 500 exactly when the results carry no review items.
   */
  lemma FormatChoice<R>(results: R, reviewItems: Option<seq<ReviewItem>>, format: string, show: real -> string)
    ensures var d := Respond(results, reviewItems, format, show);
      && (d.JsonFile? <==> format != "csv")
      && (d.JsonFile? ==> d.results == results)
      && (d.Failed? <==> format == "csv" && reviewItems.None?)
      && (d.Failed? ==> d.status == 500 && d.error == "Download failed")
  {
  }

  /**
   * The first line is the header line (which reads back as the six column names, see
   * `CsvRoundTrip`); with no review items it is the whole file, otherwise a newline follows it.
   */
  lemma HeaderFirst<R>(results: R, items: seq<ReviewItem>, show: real -> string)
    ensures var d := Respond(results, Some(items), "csv", show);
      && d.CsvFile?
      && (items == [] ==> d.content == RenderRow(Header))
      && (items != [] ==> RenderRow(Header) + "\n" <= d.content)
  {
    var rows := ItemRows(items, show);
    assert RenderRows([Header] + rows) == [RenderRow(Header)] + RenderRows(rows) by {
      assert ([Header] + rows)[1..] == rows;
    }
  }

  /** A falsy ResultID or Score (absent, `null`, empty, 0) is written as an empty field, a `null` Category as `""`. */
  lemma FalsyFields(item: ReviewItem, show: real -> string)
    ensures item.resultId.None? || item.resultId == Some("") ==> ItemRow(item, show)[2] == Plain("")
    ensures !Truthy(item.score) ==> ItemRow(item, show)[3] == Plain("")
    ensures item.score.Number? && item.score.value == 0.0 ==> ItemRow(item, show)[3] == Plain("")
    ensures item.category.None? ==> ItemRow(item, show)[4] == Quoted("")
  {
  }

  /** Identifiers, result ids and written scores that carry no separator or quote. */
  predicate PlainFields(item: ReviewItem, show: real -> string) {
    var id, rid, score := ConvIdText(item.convId), ResultText(item.resultId), ScoreText(item.score, show);
    && ',' !in id && '\n' !in id && '"' !in id
    && ',' !in rid && '\n' !in rid && '"' !in rid
    && ',' !in score && '\n' !in score && '"' !in score
  }

  /** The six values of an item's line, as a reader should recover them. */
  function ItemFields(item: ReviewItem, show: real -> string): seq<string> {
    [ConvIdText(item.convId), item.intent, ResultText(item.resultId), ScoreText(item.score, show),
     CategoryText(item.category), item.articleChunk]
  }

  function AllItemFields(items: seq<ReviewItem>, show: real -> string): (t: seq<seq<string>>)
    ensures |t| == |items|
    ensures forall j :: 0 <= j < |items| ==> t[j] == ItemFields(items[j], show)
  {
    if items == [] then [] else [ItemFields(items[0], show)] + AllItemFields(items[1..], show)
  }

  lemma {:induction false} ItemRowsTexts(items: seq<ReviewItem>, show: real -> string)
    ensures TableTexts(ItemRows(items, show)) == AllItemFields(items, show)
    decreases |items|
  {
    if items != [] {
      ItemRowsTexts(items[1..], show);
      assert ItemRows(items, show)[1..] == ItemRows(items[1..], show);
      assert Texts(ItemRow(items[0], show)) == ItemFields(items[0], show);
    }
  }

  lemma ItemRowSafe(item: ReviewItem, show: real -> string)
    requires PlainFields(item, show)
    ensures SafeRow(ItemRow(item, show))
  {
    var row := ItemRow(item, show);
    forall k | 0 <= k < 6 ensures SafeCell(row[k]) { }
  }

  lemma HeaderSafe()
    ensures SafeRow(Header)
  {
    forall k | 0 <= k < 6 ensures SafeCell(Header[k]) {
      PlainName(Header[k].text);
    }
  }

  /** A column name: letters only. */
  lemma PlainName(name: string)
    requires name in {"ConvID", "Intent", "ResultID", "Score", "Category", "ArticleChunk"}
    ensures ',' !in name && '\n' !in name && '"' !in name
  {
  }

  lemma ItemRowsSafe(items: seq<ReviewItem>, show: real -> string)
    requires forall j :: 0 <= j < |items| ==> PlainFields(items[j], show)
    ensures forall j :: 0 <= j < |items| + 1 ==> SafeRow(([Header] + ItemRows(items, show))[j])
  {
    var rows := [Header] + ItemRows(items, show);
    HeaderSafe();
    forall j | 0 <= j < |rows| ensures SafeRow(rows[j]) {
      if j > 0 {
        assert rows[j] == ItemRow(items[j - 1], show);
        ItemRowSafe(items[j - 1], show);
      }
    }
  }

  /**
   * Reading the CSV back by the rules of RFC 4180 yields the header and then, line by line in
   * input order, each item's six values, quoted fields included, whatever quotes, commas or
   * newlines they hold.
   */
  lemma CsvRoundTrip<R>(results: R, items: seq<ReviewItem>, show: real -> string)
    requires forall j :: 0 <= j < |items| ==> PlainFields(items[j], show)
    ensures ReadTable(Respond(results, Some(items), "csv", show).content)
         == Some([["ConvID", "Intent", "ResultID", "Score", "Category", "ArticleChunk"]]
                 + AllItemFields(items, show))
  {
    var rows := [Header] + ItemRows(items, show);
    ItemRowsSafe(items, show);
    TableRoundTrip(rows);
    assert rows[1..] == ItemRows(items, show);
    ItemRowsTexts(items, show);
    HeaderNames();
  }

  lemma HeaderNames()
    ensures Texts(Header) == ["ConvID", "Intent", "ResultID", "Score", "Category", "ArticleChunk"]
  {
    var names := ["ConvID", "Intent", "ResultID", "Score", "Category", "ArticleChunk"];
    forall k | 0 <= k < 6 ensures Texts(Header)[k] == names[k] { }
  }
}
