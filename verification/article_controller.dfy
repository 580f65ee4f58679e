/** The backend's two handlers (`backend/controllers/article_controller.go`):
    `CreateArticle`, which asks the summariser for a title, summary and tags
    and stores the merged article, and `GetArticles`, which lists every
    stored article. The request binding, the summariser's HTTP reply, the
    clock and the database are parameters. */
module Controller {
  import opened Common
  import opened Models

  const StatusOk: int := 200
  const StatusCreated: int := 201
  const StatusBadRequest: int := 400
  const StatusServerError: int := 500

  const FailedSummary := "摘要生成失敗 (AI Service Unavailable)"
  const FailedTags: seq<string> := ["Error"]
  const FailedTitle := "Unknown Title (Auto-generation failed)"
  const BadRequestPrefix := "無效的請求格式: "
  const InsertFailedPrefix := "寫入資料庫失敗: "
  const CreatedMessage := "Article created successfully"

  /** The body posted to the summariser. */
  datatype PythonRequest = PythonRequest(content: string, url: string)

  /** The summariser's 200 body as Go decodes it; a missing or null `tags`
      decodes to the nil slice. */
  datatype PythonResponse = PythonResponse(title: string, summary: string, tags: Option<seq<string>>)

  /** Decoding a reply body into `PythonResponse`. */
  datatype BodyDecode = Decodes(response: PythonResponse) | Undecodable(reason: string)

  /** The outcome of the HTTP POST to the summariser. */
  datatype PostOutcome = PostFailed(reason: string) | Replied(status: int, body: BodyDecode)

  /** Why the summariser call failed. The error text built from it is only
      logged. */
  datatype AiError = Unreachable(reason: string) | BadStatus(status: int) | BadBody(reason: string)

  /** The four results of `callPythonAIService`. */
  datatype AiResult = AiResult(title: string, summary: string, tags: Option<seq<string>>, err: Option<AiError>)

  /** What `c.BindJSON` made of the request body. */
  datatype BindOutcome = Bound(article: Article) | BindFailed(reason: string)

  /** What `InsertOne` did with a document. */
  datatype InsertOutcome = Inserted(insertedId: ObjectId) | InsertFailed(reason: string)

  /** The JSON bodies `CreateArticle` answers with. */
  datatype CreateBody =
    | CreateError(error: string)
    | Created(message: string, insertedId: ObjectId, title: string)

  datatype CreateResponse = CreateResponse(status: int, body: CreateBody)

  /** The side effects `CreateArticle` performs, in order. */
  datatype Action = CallAi(request: PythonRequest) | Insert(doc: Article)

  datatype CreateRun = CreateRun(response: CreateResponse, actions: seq<Action>)

  /** One step of the database cursor: a document, or its decode error. */
  datatype DocDecode = Doc(article: Article) | DecodeFailed(reason: string)

  /** The outcome of `Find`: an error, or the documents the cursor yields
      before `Next` returns false. */
  datatype FindOutcome = FindFailed(reason: string) | Cursor(docs: seq<DocDecode>)

  /** The JSON bodies `GetArticles` answers with; `data` is `None` when the
      slice stayed nil. */
  datatype ListBody = ListError(error: string) | ListData(data: Option<seq<Article>>)

  datatype ListResponse = ListResponse(status: int, body: ListBody)

  /** `callPythonAIService`: post the content and URL, then normalise every
      failure to empty strings, nil tags and an error. */
  function CallPythonAIService(content: string, url: string, post: PythonRequest -> PostOutcome): (r: AiResult)
    ensures var reply := post(PythonRequest(content, url));
            r.err.None? <==> reply.Replied? && reply.status == StatusOk && reply.body.Decodes?
    ensures r.err.Some? ==> r.title == "" && r.summary == "" && r.tags == None
    ensures r.err.None? ==>
              post(PythonRequest(content, url)).body.response == PythonResponse(r.title, r.summary, r.tags)
  {
    match post(PythonRequest(content, url))
    case PostFailed(e) => AiResult("", "", None, Some(Unreachable(e)))
    case Replied(status, body) =>
      if status != StatusOk then AiResult("", "", None, Some(BadStatus(status)))
      else
        match body
        case Undecodable(e) => AiResult("", "", None, Some(BadBody(e)))
        case Decodes(p) => AiResult(p.title, p.summary, p.tags, None)
  }

  /** The merge of the summariser's result into the posted article: on
      failure fixed placeholders (keeping a non-empty client title), on
      success the summariser's title, summary and tags, whatever they are. */
  function Enrich(article: Article, ai: AiResult): (r: Article)
    ensures r.id == article.id && r.url == article.url && r.content == article.content
    ensures r.createdAt == article.createdAt
    ensures ai.err.Some? ==>
              && r.summary == FailedSummary
              && r.tags == Some(FailedTags)
              && r.title == (if article.title == "" then FailedTitle else article.title)
    ensures ai.err.None? ==> r.title == ai.title && r.summary == ai.summary && r.tags == ai.tags
  {
    if ai.err.Some? then
      var titled := if article.title == "" then article.(title := FailedTitle) else article;
      titled.(summary := FailedSummary, tags := Some(FailedTags))
    else
      article.(title := ai.title, summary := ai.summary, tags := ai.tags)
  }

  /** `CreateArticle`. */
  function CreateArticle(bind: BindOutcome, post: PythonRequest -> PostOutcome, now: Timestamp,
                         insert: Article -> InsertOutcome): (run: CreateRun)
    ensures bind.BindFailed? ==>
              run.response == CreateResponse(StatusBadRequest, CreateError(BadRequestPrefix + bind.reason))
              && run.actions == []
    ensures bind.Bound? ==>
              var a := bind.article;
              var doc := Enrich(a, CallPythonAIService(a.content, a.url, post)).(createdAt := now);
              && run.actions == [CallAi(PythonRequest(a.content, a.url)), Insert(doc)]
              && (insert(doc).InsertFailed? ==>
                    run.response == CreateResponse(StatusServerError,
                                                   CreateError(InsertFailedPrefix + insert(doc).reason)))
              && (insert(doc).Inserted? ==>
                    run.response == CreateResponse(StatusCreated,
                                                   Created(CreatedMessage, insert(doc).insertedId, doc.title)))
  {
    match bind
    case BindFailed(e) =>
      CreateRun(CreateResponse(StatusBadRequest, CreateError(BadRequestPrefix + e)), [])
    case Bound(article) =>
      var ai := CallPythonAIService(article.content, article.url, post);
      var enriched := Enrich(article, ai);
      var doc := enriched.(createdAt := now);
      var actions := [CallAi(PythonRequest(article.content, article.url)), Insert(doc)];
      match insert(doc)
      case InsertFailed(e) =>
        CreateRun(CreateResponse(StatusServerError, CreateError(InsertFailedPrefix + e)), actions)
      case Inserted(id) =>
        CreateRun(CreateResponse(StatusCreated, Created(CreatedMessage, id, doc.title)), actions)
  }

  /** Every document on the cursor decoded. */
  predicate AllDecode(docs: seq<DocDecode>) {
    forall i :: 0 <= i < |docs| ==> docs[i].Doc?
  }

  /** The error of the first document that fails to decode, if any. */
  function FirstDecodeFailure(docs: seq<DocDecode>): (r: Option<string>)
    ensures r.None? <==> AllDecode(docs)
    ensures forall i :: 0 <= i < |docs| && docs[i].DecodeFailed? && AllDecode(docs[..i]) ==>
                          r == Some(docs[i].reason)
    decreases |docs|
  {
    if |docs| == 0 then None
    else if docs[0].DecodeFailed? then Some(docs[0].reason)
    else
      var r := FirstDecodeFailure(docs[1..]);
      assert forall i :: 0 < i < |docs| && docs[i].DecodeFailed? && AllDecode(docs[..i]) ==>
                           r == Some(docs[i].reason) by {
        forall i | 0 < i < |docs| && docs[i].DecodeFailed? && AllDecode(docs[..i])
          ensures r == Some(docs[i].reason)
        {
          assert docs[1..][i - 1] == docs[i];
          assert docs[1..][..i - 1] == docs[..i][1..];
        }
      }
      r
  }

  /** The decoded articles, in cursor order. */
  function Articles(docs: seq<DocDecode>): (r: seq<Article>)
    requires AllDecode(docs)
    ensures |r| == |docs|
    ensures forall i :: 0 <= i < |docs| ==> r[i] == docs[i].article
  {
    seq(|docs|, i requires 0 <= i < |docs| => docs[i].article)
  }

  /** The answer `GetArticles` gives: 500 with the first error, otherwise
      200 with the articles in cursor order, and a nil slice (serialised as
      `null`) when there are none. */
  function ListResult(find: FindOutcome): (r: ListResponse)
    ensures r.status == StatusOk <==> find.Cursor? && AllDecode(find.docs)
    ensures r.status != StatusOk ==> r.status == StatusServerError && r.body.ListError?
    ensures r.status == StatusOk ==> r.body.ListData? && (r.body.data.None? <==> |find.docs| == 0)
  {
    match find
    case FindFailed(e) => ListResponse(StatusServerError, ListError(e))
    case Cursor(docs) =>
      match FirstDecodeFailure(docs)
      case Some(e) => ListResponse(StatusServerError, ListError(e))
      case None => ListResponse(StatusOk, ListData(if |docs| == 0 then None else Some(Articles(docs))))
  }

  /** Go's `append` on a possibly nil slice: never nil afterwards. */
  function Append<T>(slice: Option<seq<T>>, x: T): (r: Option<seq<T>>)
    ensures r.Some?
  {
    Some(slice.GetOr([]) + [x])
  }

  /** `GetArticles`: walk the cursor, appending each decoded document to an
      initially nil slice and aborting with 500 on the first decode error. */
  method GetArticles(find: FindOutcome) returns (r: ListResponse)
    ensures r == ListResult(find)
    ensures find.Cursor? && AllDecode(find.docs) && |find.docs| > 0 ==>
              r.body == ListData(Some(Articles(find.docs)))
  {
    if find.FindFailed? {
      return ListResponse(StatusServerError, ListError(find.reason));
    }
    var docs := find.docs;
    var articles: Option<seq<Article>> := None;
    var i := 0;
    while i < |docs|
      invariant 0 <= i <= |docs|
      invariant AllDecode(docs[..i])
      invariant articles.None? <==> i == 0
      invariant |articles.GetOr([])| == i
      invariant forall k :: 0 <= k < i ==> articles.GetOr([])[k] == docs[k].article
    {
      match docs[i]
      case DecodeFailed(e) =>
        return ListResponse(StatusServerError, ListError(e));
      case Doc(a) =>
        articles := Append(articles, a);
      assert docs[..i + 1] == docs[..i] + [docs[i]];
      i := i + 1;
    }
    assert docs[..i] == docs;
    if articles.Some? {
      assert articles.value == Articles(docs);
    }
    return ListResponse(StatusOk, ListData(articles));
  }

  /** A failed enrichment is a fixed point: enriching its result after a
      second failure changes nothing, since the title is no longer empty. */
  lemma EnrichFailureIsStable(article: Article, first: AiResult, second: AiResult)
    requires first.err.Some? && second.err.Some?
    ensures Enrich(Enrich(article, first), second) == Enrich(article, first)
    ensures Enrich(article, first).title != ""
  {
  }

  /** A successful enrichment forgets everything the client sent except the
      id, URL, content and timestamp. */
  lemma EnrichSuccessIgnoresClientText(a1: Article, a2: Article, ai: AiResult)
    requires ai.err.None?
    requires a1.id == a2.id && a1.url == a2.url && a1.content == a2.content && a1.createdAt == a2.createdAt
    ensures Enrich(a1, ai) == Enrich(a2, ai)
  {
  }

  /** `CreateArticle` answers 201 exactly when the body bound and the insert
      succeeded, 400 exactly when binding failed, and 500 otherwise. */
  lemma CreateStatus(bind: BindOutcome, post: PythonRequest -> PostOutcome, now: Timestamp,
                     insert: Article -> InsertOutcome)
    ensures var run := CreateArticle(bind, post, now, insert);
            && (run.response.status == StatusBadRequest <==> bind.BindFailed?)
            && (run.response.status == StatusCreated <==>
                  bind.Bound? && insert(run.actions[1].doc).Inserted?)
            && (run.response.status == StatusServerError <==>
                  bind.Bound? && insert(run.actions[1].doc).InsertFailed?)
  {
  }
}
