/** The Python summariser (`ai_service/main.py`): the two scraping
    strategies, the empty-content rejection and the truncation that decides
    what the language model is given. Every foreign call (HTTP, JSON
    decoding, HTML element selection, `str.strip`, the model chain) is a
    parameter. */
module AiService {
  import opened Common
  import opened Text

  /** Scraped content is accepted only when strictly longer than this. */
  const MinContentLength: nat := 100
  /** The model never sees more than this many characters. */
  const MaxModelInput: nat := 5000
  const JsonFormatQuery := "?format=json"
  const ParagraphSeparator := "\n"
  const ElementSeparator := "\n\n"
  const Ok: int := 200
  const ScrapeFailedStatus: int := 400
  const ModelFailedStatus: int := 500
  const ScrapeFailedDetail := "無法抓取該網址內容，可能是網站防護升級或網址無效"
  const ModelFailedPrefix := "AI 處理失敗: "

  /** The endpoint's request body: only `url` is declared, so any other key
      the caller sends is dropped when the body is read. */
  datatype ArticleRequest = ArticleRequest(url: string)

  /** What the model chain parses its answer into (the endpoint's 200 body). */
  datatype ArticleSummary = ArticleSummary(title: string, summary: string, tags: seq<string>)

  /** The outcome of one `requests.get`: it raised, or it answered. */
  datatype HttpReply = Raised | Reply(status: int, text: string)

  /** What the JSON strategy finds in the text from the first `{` on:
      - `DecodeError`: `json.loads` raised;
      - `ShapeError`: some other exception while navigating the document
        (a non-object level, a `null` paragraph text, ...);
      - `NoValue`: `payload.value` is missing or falsy;
      - `Paragraphs`: the `text` of each paragraph under
        `payload.value.content.bodyModel.paragraphs`, `None` when missing. */
  datatype JsonPayload =
    | DecodeError
    | ShapeError
    | NoValue
    | Paragraphs(texts: seq<Option<string>>)

  /** The scraper's environment. `selectTexts` is BeautifulSoup's work: the
      `get_text()` of every p/h1/h2/h3/h4/blockquote/li element of the first
      `<article>` (or of the whole page when there is none), in document
      order. `strip` is Python's `str.strip`. */
  datatype Web = Web(
    getJson: string -> HttpReply,
    getHtml: string -> HttpReply,
    decodeJson: string -> JsonPayload,
    selectTexts: string -> seq<string>,
    strip: string -> string)

  /** The outcome of the model chain on one input. */
  datatype ModelOutcome = Parsed(summary: ArticleSummary) | ModelRaised(message: string)

  /** The endpoint's answer. */
  datatype EndpointResponse = Summarized(summary: ArticleSummary) | HttpError(status: int, detail: string)

  /** One call of the endpoint: its answer and what the model was given. */
  datatype SummarizeRun = SummarizeRun(response: EndpointResponse, modelInput: Option<string>)

  /** The address the JSON strategy requests: the URL with the query string
      appended verbatim, even when the URL already has a query. */
  function JsonApiAddress(url: string): (a: string)
    ensures |a| == |url| + |JsonFormatQuery|
    ensures a[..|url|] == url && a[|url|..] == JsonFormatQuery
  {
    url + JsonFormatQuery
  }

  /** Python's `text.find(c)`: the index of the first `c`, or -1. */
  function Find(text: string, c: char): (i: int)
    ensures -1 <= i < |text|
    ensures i == -1 <==> c !in text
    ensures 0 <= i ==> text[i] == c && forall k :: 0 <= k < i ==> text[k] != c
  {
    FindFrom(text, c, 0)
  }

  /** The index of the first `c` at or after `from`, or -1. */
  function FindFrom(text: string, c: char, from: nat): (i: int)
    requires from <= |text|
    ensures -1 <= i < |text|
    ensures i == -1 <==> forall k :: from <= k < |text| ==> text[k] != c
    ensures 0 <= i ==> from <= i && text[i] == c && forall k :: from <= k < i ==> text[k] != c
    decreases |text| - from
  {
    if from == |text| then -1
    else if text[from] == c then from
    else FindFrom(text, c, from + 1)
  }

  /** The paragraph texts, a missing one read as "" (`p.get("text", "")`). */
  function ParagraphTexts(texts: seq<Option<string>>): (r: seq<string>)
    ensures |r| == |texts|
    ensures forall i :: 0 <= i < |texts| ==> r[i] == texts[i].GetOr("")
  {
    seq(|texts|, i requires 0 <= i < |texts| => texts[i].GetOr(""))
  }

  /** Content is kept only when strictly longer than the threshold. */
  predicate Accepted(content: string) {
    |content| > MinContentLength
  }

  /** Strategy 1: request the JSON API, decode from the first `{`, join the
      paragraph texts with newlines; `None` is a fall-through to strategy 2. */
  function JsonStrategy(url: string, web: Web): (r: Option<string>)
    ensures r.Some? ==> Accepted(r.value)
    ensures r.Some? ==>
              var reply := web.getJson(JsonApiAddress(url));
              && reply.Reply? && reply.status == Ok && Find(reply.text, '{') >= 0
              && var payload := web.decodeJson(reply.text[Find(reply.text, '{')..]);
                 payload.Paragraphs? && r.value == Join(ParagraphTexts(payload.texts), ParagraphSeparator)
  {
    match web.getJson(JsonApiAddress(url))
    case Raised => None
    case Reply(status, text) =>
      if status != Ok then None
      else
        var start := Find(text, '{');
        if start == -1 then None
        else
          match web.decodeJson(text[start..])
          case Paragraphs(texts) =>
            var content := Join(ParagraphTexts(texts), ParagraphSeparator);
            if Accepted(content) then Some(content) else None
          case _ => None
  }

  /** The stripped element texts with the empty ones dropped, in order. */
  function StrippedPieces(texts: seq<string>, strip: string -> string): (pieces: seq<string>)
    ensures |pieces| <= |texts|
    ensures forall i :: 0 <= i < |pieces| ==> pieces[i] != ""
    decreases |texts|
  {
    if |texts| == 0 then []
    else
      var head := strip(texts[0]);
      var rest := StrippedPieces(texts[1..], strip);
      if head != "" then [head] + rest else rest
  }

  /** Strategy 2: fetch the page itself and join the non-empty stripped
      element texts with blank lines. */
  function HtmlStrategy(url: string, web: Web): (r: Option<string>)
    ensures r.Some? ==> Accepted(r.value)
    ensures r.Some? ==>
              var reply := web.getHtml(url);
              && reply.Reply? && reply.status == Ok
              && r.value == Join(StrippedPieces(web.selectTexts(reply.text), web.strip), ElementSeparator)
  {
    match web.getHtml(url)
    case Raised => None
    case Reply(status, text) =>
      if status != Ok then None
      else
        var content := Join(StrippedPieces(web.selectTexts(text), web.strip), ElementSeparator);
        if Accepted(content) then Some(content) else None
  }

  /** `__custom_scraper`: the first strategy that yields accepted content,
      JSON first, or "" when neither does. */
  function Scrape(url: string, web: Web): (content: string)
    ensures content == "" || Accepted(content)
    ensures content != "" <==> JsonStrategy(url, web).Some? || HtmlStrategy(url, web).Some?
    ensures JsonStrategy(url, web).Some? ==> content == JsonStrategy(url, web).value
    ensures JsonStrategy(url, web).None? && HtmlStrategy(url, web).Some? ==>
              content == HtmlStrategy(url, web).value
  {
    match JsonStrategy(url, web)
    case Some(c) => c
    case None =>
      match HtmlStrategy(url, web)
      case Some(c) => c
      case None => ""
  }

  /** `final_content[:5000]` when it is longer than 5000 characters. */
  function Truncate(content: string): (r: string)
    ensures |r| <= MaxModelInput && |r| <= |content|
    ensures r == content[..|r|]
    ensures |content| <= MaxModelInput ==> r == content
    ensures |content| > MaxModelInput ==> |r| == MaxModelInput
  {
    if |content| > MaxModelInput then content[..MaxModelInput] else content
  }

  /** The `/summarize` endpoint. */
  function Summarize(request: ArticleRequest, web: Web, model: string -> ModelOutcome): (run: SummarizeRun)
    ensures Scrape(request.url, web) == "" <==> run.modelInput.None?
    ensures run.modelInput.None? ==> run.response == HttpError(ScrapeFailedStatus, ScrapeFailedDetail)
    ensures run.modelInput.Some? ==>
              var input := run.modelInput.value;
              && MinContentLength < |input| <= MaxModelInput
              && |input| <= |Scrape(request.url, web)|
              && input == Truncate(Scrape(request.url, web))
              && input == Scrape(request.url, web)[..|input|]
              && run.response == match model(input)
                                 case Parsed(s) => Summarized(s)
                                 case ModelRaised(m) => HttpError(ModelFailedStatus, ModelFailedPrefix + m)
  {
    var content := Scrape(request.url, web);
    if content == "" then
      SummarizeRun(HttpError(ScrapeFailedStatus, ScrapeFailedDetail), None)
    else
      var input := Truncate(content);
      match model(input)
      case Parsed(s) => SummarizeRun(Summarized(s), Some(input))
      case ModelRaised(m) => SummarizeRun(HttpError(ModelFailedStatus, ModelFailedPrefix + m), Some(input))
  }

  /** A 200 JSON reply whose text from the first `{` decodes to paragraphs
      yields their newline join exactly when that join is long enough. */
  lemma JsonStrategyOnParagraphs(url: string, web: Web, text: string, texts: seq<Option<string>>)
    requires web.getJson(JsonApiAddress(url)) == Reply(Ok, text)
    requires Find(text, '{') >= 0
    requires web.decodeJson(text[Find(text, '{')..]) == Paragraphs(texts)
    ensures var content := Join(ParagraphTexts(texts), ParagraphSeparator);
            JsonStrategy(url, web) == if Accepted(content) then Some(content) else None
  {
  }

  /** A 200 page yields the blank-line join of its kept pieces exactly when
      that join is long enough. */
  lemma HtmlStrategyOnPage(url: string, web: Web, text: string)
    requires web.getHtml(url) == Reply(Ok, text)
    ensures var content := Join(StrippedPieces(web.selectTexts(text), web.strip), ElementSeparator);
            HtmlStrategy(url, web) == if Accepted(content) then Some(content) else None
  {
  }

  /** The JSON strategy accepts a paragraph list exactly when the texts and
      the newlines between them add up to more than the threshold. */
  lemma JsonThreshold(texts: seq<Option<string>>)
    ensures Accepted(Join(ParagraphTexts(texts), ParagraphSeparator)) <==>
            TotalLength(ParagraphTexts(texts)) + (if |texts| == 0 then 0 else |texts| - 1) > MinContentLength
  {
    JoinLength(ParagraphTexts(texts), ParagraphSeparator);
  }

  /** The HTML strategy accepts exactly when the kept pieces and the blank
      lines between them add up to more than the threshold. */
  lemma HtmlThreshold(texts: seq<string>, strip: string -> string)
    ensures var pieces := StrippedPieces(texts, strip);
            Accepted(Join(pieces, ElementSeparator)) <==>
            TotalLength(pieces) + (if |pieces| == 0 then 0 else 2 * (|pieces| - 1)) > MinContentLength
  {
    JoinLength(StrippedPieces(texts, strip), ElementSeparator);
  }

  /** Keeping pieces distributes over concatenation of the element list, and
      a single element contributes its stripped text exactly when that is
      non-empty: the pieces are the non-empty stripped texts in document
      order. */
  lemma {:induction false} StrippedPiecesConcat(a: seq<string>, b: seq<string>, strip: string -> string)
    ensures StrippedPieces(a + b, strip) == StrippedPieces(a, strip) + StrippedPieces(b, strip)
    decreases |a|
  {
    if |a| == 0 {
      assert a + b == b;
    } else {
      assert (a + b)[1..] == a[1..] + b;
      StrippedPiecesConcat(a[1..], b, strip);
    }
  }

  /** A single element contributes its stripped text exactly when that text
      is non-empty. */
  lemma StrippedPiecesSingle(t: string, strip: string -> string)
    ensures StrippedPieces([t], strip) == if strip(t) != "" then [strip(t)] else []
  {
    assert [t][1..] == [];
  }

  /** The scraper requests nothing but the JSON API address and the URL
      itself: two environments that answer those two requests alike (and
      decode, select and strip alike) scrape the same content. */
  lemma ScrapeAsksOnlyTwoAddresses(url: string, w1: Web, w2: Web)
    requires w1.getJson(JsonApiAddress(url)) == w2.getJson(JsonApiAddress(url))
    requires w1.getHtml(url) == w2.getHtml(url)
    requires w1.decodeJson == w2.decodeJson && w1.selectTexts == w2.selectTexts && w1.strip == w2.strip
    ensures Scrape(url, w1) == Scrape(url, w2)
  {
    assert JsonStrategy(url, w1) == JsonStrategy(url, w2);
    assert HtmlStrategy(url, w1) == HtmlStrategy(url, w2);
  }
}
