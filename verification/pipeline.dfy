/** How the three programs meet on the wire: the client's list request
    against `GetArticles`, the client's submit against `CreateArticle`, and
    the backend's summariser call against the Python endpoint. */
module Pipeline {
  import opened Common
  import Page
  import Models
  import Controller
  import AiService

  /** A stored article as the client reads it from its JSON rendering. */
  function ToClient(a: Models.Article): (c: Page.Article)
    ensures c.id == a.id && c.title == a.title && c.url == a.url && c.summary == a.summary
    ensures c.tags == a.tags && c.createdAt == a.createdAt
  {
    Page.Article(a.id, a.title, a.url, a.summary, a.tags, a.createdAt)
  }

  function ToClientAll(xs: seq<Models.Article>): (cs: seq<Page.Article>)
    ensures |cs| == |xs|
    ensures forall i :: 0 <= i < |xs| ==> cs[i] == ToClient(xs[i])
  {
    seq(|xs|, i requires 0 <= i < |xs| => ToClient(xs[i]))
  }

  /** What the client's `fetchArticles` gets out of a `GetArticles` answer
      (`None`: the request itself failed). An error body has no `data` key
      and a nil slice arrives as `null`; both read as a missing list. */
  function ClientLoad(reply: Option<Controller.ListResponse>): (o: Page.LoadOutcome)
    ensures o.LoadThrew? <==> reply.None?
    ensures reply.Some? && reply.value.body.ListError? ==> o == Page.LoadParsed(None)
    ensures reply.Some? && reply.value.body.ListData? ==>
              o.LoadParsed? && (o.data.None? <==> reply.value.body.data.None?)
    ensures reply.Some? && reply.value.body.ListData? && reply.value.body.data.Some? ==>
              o.data.value == ToClientAll(reply.value.body.data.value)
  {
    match reply
    case None => Page.LoadThrew
    case Some(r) =>
      match r.body
      case ListError(_) => Page.LoadParsed(None)
      case ListData(None) => Page.LoadParsed(None)
      case ListData(Some(xs)) => Page.LoadParsed(Some(ToClientAll(xs)))
  }

  /** After a list request that reaches the backend, the client shows the
      stored articles in cursor order, an empty database included; because
      the status is never checked, any server error empties the list. */
  lemma ClientListMirrorsStore(s: Page.State, find: Controller.FindOutcome)
    ensures var t := Page.ApplyLoad(s, ClientLoad(Some(Controller.ListResult(find))));
            && t.form == s.form && t.loading == s.loading
            && (find.Cursor? && Controller.AllDecode(find.docs) ==>
                  t.articles == ToClientAll(Controller.Articles(find.docs)))
            && (!(find.Cursor? && Controller.AllDecode(find.docs)) ==> t.articles == [])
  {
    if find.Cursor? && Controller.AllDecode(find.docs) && |find.docs| == 0 {
      assert Controller.Articles(find.docs) == [];
    }
  }

  /** What `c.BindJSON` makes of the client's `JSON.stringify(formData)`:
      an article with only the URL and content set. */
  function BindForm(form: Page.Form): (b: Controller.BindOutcome)
    ensures b.Bound? && b.article.url == form.url && b.article.content == form.content
    ensures b.article.title == "" && b.article.id == Models.ZeroObjectId
    ensures b.article.summary == "" && b.article.tags == None && b.article.createdAt == ZeroTime
  {
    Controller.Bound(Models.Article(Models.ZeroObjectId, "", form.content, "", None, form.url, ZeroTime))
  }

  /** What `handleSubmit` sees of a `CreateArticle` answer (`None`: the
      request itself failed). */
  function ClientSubmit(reply: Option<Controller.CreateResponse>): (o: Page.SubmitOutcome)
    ensures o.SubmitThrew? <==> reply.None?
    ensures reply.Some? ==> o == Page.SubmitResponded(reply.value.status)
  {
    match reply
    case None => Page.SubmitThrew
    case Some(r) => Page.SubmitResponded(r.status)
  }

  /** A submit that reaches the backend clears the draft and reloads the list
      exactly when the article was stored, and alerts exactly when it was
      not. */
  lemma SubmitClearsDraftIffStored(s: Page.State, posted: Page.Form,
                                   post: Controller.PythonRequest -> Controller.PostOutcome,
                                   now: Timestamp, insert: Models.Article -> Controller.InsertOutcome)
    ensures var run := Controller.CreateArticle(BindForm(posted), post, now, insert);
            var stored := insert(run.actions[1].doc).Inserted?;
            var step := Page.FinishSubmit(s, ClientSubmit(Some(run.response)));
            && (Page.FetchArticles in step.effects <==> stored)
            && (Page.ShowAlert(Page.SubmitFailedAlert) in step.effects <==> !stored)
            && step.state.form == (if stored then Page.EmptyForm else s.form)
  {
  }

  /** The endpoint's reading of the backend's request body: only `url`. */
  function ToArticleRequest(req: Controller.PythonRequest): (r: AiService.ArticleRequest)
    ensures r.url == req.url
  {
    AiService.ArticleRequest(req.url)
  }

  /** The endpoint's answer as the backend receives it. An error answer
      carries only `detail`, which would decode to empty fields, but the
      backend rejects it on its status before decoding. */
  function GoReply(resp: AiService.EndpointResponse): (r: Controller.PostOutcome)
    ensures r.Replied?
    ensures resp.Summarized? ==>
              r == Controller.Replied(Controller.StatusOk,
                     Controller.Decodes(Controller.PythonResponse(resp.summary.title, resp.summary.summary,
                                                                 Some(resp.summary.tags))))
    ensures resp.HttpError? ==> r.status == resp.status
  {
    match resp
    case Summarized(s) =>
      Controller.Replied(Controller.StatusOk, Controller.Decodes(Controller.PythonResponse(s.title, s.summary, Some(s.tags))))
    case HttpError(status, _) =>
      Controller.Replied(status, Controller.Decodes(Controller.PythonResponse("", "", None)))
  }

  /** Whether the backend's POST gets the endpoint's answer back: it may
      instead be refused, or give up after its 90-second client timeout
      while the scraper (up to 10 + 100 seconds) and the model still run. */
  datatype Transport = Delivered | Lost(reason: string)

  /** The summariser as the backend's POST sees it. */
  function Summariser(web: AiService.Web, model: string -> AiService.ModelOutcome, transport: Transport):
    (post: Controller.PythonRequest -> Controller.PostOutcome)
    ensures transport.Lost? ==> forall req :: post(req) == Controller.PostFailed(transport.reason)
    ensures transport.Delivered? ==>
              forall req :: post(req) == GoReply(AiService.Summarize(AiService.ArticleRequest(req.url), web, model).response)
  {
    req =>
      match transport
      case Lost(e) => Controller.PostFailed(e)
      case Delivered => GoReply(AiService.Summarize(ToArticleRequest(req), web, model).response)
  }

  /** The document `CreateArticle` stores for a submitted draft. */
  function StoredDoc(form: Page.Form, web: AiService.Web, model: string -> AiService.ModelOutcome,
                     transport: Transport, now: Timestamp,
                     insert: Models.Article -> Controller.InsertOutcome): Models.Article
  {
    Controller.CreateArticle(BindForm(form), Summariser(web, model, transport), now, insert).actions[1].doc
  }

  /** The supplementary content a user pastes is stored but never reaches the
      model: two drafts with the same URL get the same title, summary and
      tags. */
  lemma PastedContentIsIgnored(f1: Page.Form, f2: Page.Form, web: AiService.Web,
                               model: string -> AiService.ModelOutcome, transport: Transport,
                               now: Timestamp, insert: Models.Article -> Controller.InsertOutcome)
    requires f1.url == f2.url
    ensures var d1 := StoredDoc(f1, web, model, transport, now, insert);
            var d2 := StoredDoc(f2, web, model, transport, now, insert);
            d1.title == d2.title && d1.summary == d2.summary && d1.tags == d2.tags
    ensures StoredDoc(f1, web, model, transport, now, insert).content == f1.content
  {
    var r1 := Controller.PythonRequest(f1.content, f1.url);
    var r2 := Controller.PythonRequest(f2.content, f2.url);
    assert ToArticleRequest(r1) == ToArticleRequest(r2);
    assert Summariser(web, model, transport)(r1) == Summariser(web, model, transport)(r2);
  }

  /** A page neither strategy can scrape is stored with the placeholders,
      even when the user pasted its text. */
  lemma UnscrapablePageGetsPlaceholders(form: Page.Form, web: AiService.Web,
                                        model: string -> AiService.ModelOutcome, transport: Transport,
                                        now: Timestamp, insert: Models.Article -> Controller.InsertOutcome)
    requires AiService.Scrape(form.url, web) == ""
    ensures var d := StoredDoc(form, web, model, transport, now, insert);
            && d.title == Controller.FailedTitle
            && d.summary == Controller.FailedSummary
            && d.tags == Some(Controller.FailedTags)
            && d.url == form.url && d.content == form.content && d.createdAt == now
  {
    var req := Controller.PythonRequest(form.content, form.url);
    assert AiService.Summarize(ToArticleRequest(req), web, model).response.status == AiService.ScrapeFailedStatus;
  }

  /** When the backend's POST gets no answer, the placeholders are stored
      whatever the scraper and the model would have produced. */
  lemma LostReplyGetsPlaceholders(form: Page.Form, web: AiService.Web,
                                  model: string -> AiService.ModelOutcome, reason: string,
                                  now: Timestamp, insert: Models.Article -> Controller.InsertOutcome)
    ensures var d := StoredDoc(form, web, model, Lost(reason), now, insert);
            && d.title == Controller.FailedTitle
            && d.summary == Controller.FailedSummary
            && d.tags == Some(Controller.FailedTags)
            && d.url == form.url && d.content == form.content && d.createdAt == now
  {
  }

  /** A scraped page whose answer reaches the backend is stored with the
      model's answer on its (truncated) text, or with the placeholders when
      the model fails. */
  lemma ScrapedPageGetsModelAnswer(form: Page.Form, web: AiService.Web,
                                   model: string -> AiService.ModelOutcome, now: Timestamp,
                                   insert: Models.Article -> Controller.InsertOutcome)
    requires AiService.Scrape(form.url, web) != ""
    ensures var d := StoredDoc(form, web, model, Delivered, now, insert);
            var input := AiService.Truncate(AiService.Scrape(form.url, web));
            && (model(input).Parsed? ==>
                  && d.title == model(input).summary.title
                  && d.summary == model(input).summary.summary
                  && d.tags == Some(model(input).summary.tags))
            && (model(input).ModelRaised? ==>
                  && d.title == Controller.FailedTitle
                  && d.summary == Controller.FailedSummary && d.tags == Some(Controller.FailedTags))
  {
    var req := Controller.PythonRequest(form.content, form.url);
    var run := AiService.Summarize(ToArticleRequest(req), web, model);
    assert run.modelInput == Some(AiService.Truncate(AiService.Scrape(form.url, web)));
  }

  /** A worked example: a draft for "https://example.com/post" is accepted,
      the draft resets, one reload is requested, and the reloaded article
      shows as "Post" with the chips "#go" and "#ai". */
  lemma SubmitThenReloadExample(id: string, at: Timestamp)
    ensures var s := Page.Initial();
            var s1 := Page.Edit(s, Page.UrlField, "https://example.com/post");
            var start := Page.StartSubmit(s1);
            var done := Page.FinishSubmit(start.state, Page.SubmitResponded(Controller.StatusCreated));
            var post := Page.Article(id, "Post", "https://example.com/post", "…", Some(["go", "ai"]), at);
            var shown := Page.ApplyLoad(done.state, Page.LoadParsed(Some([post])));
            && start.effects == [Page.PostArticle(Page.Form("https://example.com/post", ""))]
            && done.state.form == Page.EmptyForm
            && done.effects == [Page.FetchArticles]
            && |shown.articles| == 1
            && Page.DisplayTitle(shown.articles[0]) == "Post"
            && Page.TagChips(shown.articles[0]) == ["#go", "#ai"]
  {
    var chips := Page.Chips(["go", "ai"]);
    assert chips[0] == "#go" && chips[1] == "#ai";
    assert chips == ["#go", "#ai"];
  }
}
