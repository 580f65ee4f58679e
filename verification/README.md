# GopherDigest, modelled in Dafny

GopherDigest is a three-part "tech digest" service:

- a Next.js page lets a user submit an article URL, with optional pasted text, and lists the stored articles;
- a Go/gin backend stores each submitted article in MongoDB after asking a summariser for a title, a summary and tags;
- a Python/FastAPI summariser scrapes the page and asks a local language model for that summary.

This project models the decision logic under that plumbing as pure functions. Every network, database, clock or model outcome is passed in as a parameter:

- `page.dfy` (module `Page`): the page state `{articles, loading, form}` and its transitions: mount, field edit, list load, submit start and submit finish. It also holds the title fallback and the tag chips, plus a session model (page + requests in flight) driven by browser events.
- `models.dfy` (module `Models`): the backend's `Article` record.
- `article_controller.dfy` (module `Controller`): `callPythonAIService`'s error normalisation, the enrichment merge and status codes of `CreateArticle`, and the cursor walk of `GetArticles`, including the nil slice it returns for an empty collection.
- `ai_service.dfy` (module `AiService`): the scraper's two strategies, the threshold above 100 characters, the empty-content rejection, the 5000-character truncation and the `/summarize` endpoint.
- `text.dfy` (module `Text`): Python's `str.join`, with its length and its part placement.
- `pipeline.dfy` (module `Pipeline`): how the three programs meet on the wire. It proves end-to-end facts, for example that pasted content never reaches the model.
- `common.dfy` (module `Common`): `Option` (null / nil / missing key) and `Timestamp`.

The model follows the code where it skips checks a careful client would make:

- the list load never checks `res.ok`, so a server error body empties the list;
- `handleSubmit` has no re-entrancy guard of its own, and only the disabled button prevents a second submit;
- nothing discards a late response;
- the hostname and date of a card are computed with throwing/locale-dependent calls, not with fallbacks.

## Model

| member | source | states |
|---|---|---|
| Page.Initial | frontend/app/page.tsx:16-22 | the page starts with no articles, not loading, and a draft whose url and content are both empty |
| Page.Mount | frontend/app/page.tsx:34-36 | mounting the page starts exactly one list request and changes nothing else |
| Page.Edit | frontend/app/page.tsx:105-124 | editing one field sets that field to the typed value; the other field, the list and `loading` are unchanged |
| Page.ApplyLoad | frontend/app/page.tsx:24-32 | a parsed body replaces the whole list with `data.data` in order, or with [] when it is missing or null, whatever the status; a throw leaves the page exactly as it was |
| Page.StartSubmit | frontend/app/page.tsx:38-47 | a submit raises `loading`, posts the current draft, and touches neither the list nor the draft; it does not check whether a submit is already in flight |
| Page.FinishSubmit | frontend/app/page.tsx:49-59 | an ok status clears the draft and requests exactly one reload; a non-ok status or a throw keeps the draft and requests no reload; only the non-ok status alerts, and a throw only logs; `loading` is false after every outcome |
| Page.DisplayTitle | frontend/app/page.tsx:185 | the heading is never empty: the title when it is non-empty, "Untitled Article" otherwise |
| Page.Chips | frontend/app/page.tsx:208-212 | one chip per tag, in order, each chip being "#" followed by the tag |
| Page.TagChips | frontend/app/page.tsx:207-213 | a card has no chips exactly when its tags are null or empty, and otherwise "#"+tag for each tag in order |
| Page.ChipsRecoverTags | frontend/app/page.tsx:210 | dropping the leading "#" from each chip gives the tags back |
| Page.LoadIdempotent | frontend/app/page.tsx:28 | applying the same list outcome twice gives the same page as applying it once |
| Page.LastParsedLoadWins | frontend/app/page.tsx:28 | a parsed load discards whatever an earlier load left: the list is replaced, never merged |
| Page.EditsCommute | frontend/app/page.tsx:105-124 | edits to different fields commute, and for one field the last edit wins |
| Page.RetryPostsSameDraft | frontend/app/page.tsx:46-56 | after a failed or throwing submit, submitting again posts exactly the draft posted before |
| Page.SuccessDiscardsPendingEdits | frontend/app/page.tsx:49-50 | a successful submit clears the draft even if it was edited while the request was pending |
| Page.IsOk | frontend/app/page.tsx:49 | the Fetch API's `res.ok`: a status from 200 through 299 |
| Page.SubmitDisabled | frontend/app/page.tsx:130 | the submit button is disabled exactly when `loading` is true |
| Page.Enabled | frontend/app/page.tsx:95-130 | the browser delivers a submit only while the button is enabled and the required URL field is non-empty; typing is always delivered; a request settles only while one is in flight |
| Page.Next | frontend/app/page.tsx:95-130 | each event reaches its own handler: typing edits the field (`Edit`), a click posts the draft (`StartSubmit`), a submit's settlement runs `FinishSubmit`, a list's settlement runs `ApplyLoad`; a click adds one submit in flight and disables the button, its settlement removes it and re-enables the button; typing and clicks start no list request, a list settlement removes one, and typing and list settlements leave submits and `loading` alone |
| Page.Fetches | frontend/app/page.tsx:51 | counts the list requests a step starts: the number of FetchArticles effects |
| Page.SettledSubmitStartsOneLoad | frontend/app/page.tsx:49-51 | a settled submit puts exactly one more list request in flight when it was ok, and none otherwise |
| Page.NextKeepsSubmitInvariant | frontend/app/page.tsx:128-130 | every event the browser can deliver keeps the invariant "at most one submit in flight, and the button is disabled exactly while one is" |
| Page.RunKeepsSubmitInvariant | frontend/app/page.tsx:38-59 | the invariant holds after any sequence of deliverable events |
| Page.MountedKeepsSubmitInvariant | frontend/app/page.tsx:34-36 | from mount on, the button is disabled exactly while a submit is in flight, and there is never more than one |
| Controller.CallPythonAIService | backend/controllers/article_controller.go:126-151 | the call fails exactly on a transport error, a status other than 200 or an undecodable body, and then returns empty title and summary and nil tags; otherwise it returns the decoded fields unchanged |
| Controller.Enrich | backend/controllers/article_controller.go:56-72 | on failure: the fixed summary and ["Error"] tags, and the fixed title only when the client title is empty; on success: the summariser's title, summary and tags, even an empty title; id, URL, content and timestamp are never changed |
| Controller.CreateArticle | backend/controllers/article_controller.go:39-87 | a failed bind answers 400 with no summariser call and no insert; otherwise the summariser is called with the content and URL, and the enriched article stamped with the current time is inserted; an insert failure answers 500, success answers 201 whose title is the stored title |
| Controller.CreateStatus | backend/controllers/article_controller.go:45-86 | the status is 400 exactly when binding fails, 201 exactly when the insert succeeds, and 500 exactly when the insert fails |
| Controller.EnrichFailureIsStable | backend/controllers/article_controller.go:58-65 | a failed enrichment never leaves the title empty, and enriching its result after another failure changes nothing |
| Controller.EnrichSuccessIgnoresClientText | backend/controllers/article_controller.go:66-70 | after a successful call the stored title, summary and tags do not depend on what the client sent for them |
| Controller.Append | backend/controllers/article_controller.go:114 | Go's `append` never leaves the slice nil, so a listing with documents never serialises `data` as null |
| Controller.FirstDecodeFailure | backend/controllers/article_controller.go:108-113 | finds no failure exactly when every document decodes, and otherwise the error of the earliest failing document |
| Controller.ListResult | backend/controllers/article_controller.go:90-117 | the listing answers 200 exactly when the query and every decode succeed; otherwise it answers 500 with an error body; `data` is null exactly when there are no documents |
| Controller.GetArticles | backend/controllers/article_controller.go:95-117 | walking the cursor from a nil slice and aborting on the first decode error gives the listing answer; with documents, `data` holds them all in cursor order |
| AiService.JsonApiAddress | ai_service/main.py:39 | the JSON strategy's address is the URL followed verbatim by "?format=json" |
| AiService.Find | ai_service/main.py:44 | gives -1 exactly when the text has no "{", and otherwise the index of the first "{" |
| AiService.Accepted | ai_service/main.py:53 | scraped content is kept only when strictly longer than 100 characters (the same rule as line 76) |
| AiService.ParagraphTexts | ai_service/main.py:52 | one text per paragraph, in order, with a missing text read as "" |
| AiService.JsonStrategy | ai_service/main.py:38-59 | content is returned only for a 200 reply whose text from the first "{" decodes to paragraphs; it is then their texts joined with "\n" and longer than 100 characters; every other reply gives nothing |
| AiService.JsonStrategyOnParagraphs | ai_service/main.py:42-55 | a 200 reply that decodes to paragraphs yields their newline join exactly when that join is longer than 100 characters |
| AiService.StrippedPieces | ai_service/main.py:74 | the kept element texts are all non-empty and no more numerous than the elements |
| AiService.StrippedPiecesConcat | ai_service/main.py:74 | the pieces of a concatenated element list are the concatenated pieces: document order is kept |
| AiService.StrippedPiecesSingle | ai_service/main.py:74 | one element contributes its stripped text exactly when that text is non-empty |
| AiService.HtmlStrategy | ai_service/main.py:63-82 | content is returned only for a 200 page; it is then the kept pieces joined with "\n\n" in document order and longer than 100 characters; a raised request or another status gives nothing |
| AiService.HtmlStrategyOnPage | ai_service/main.py:65-78 | a 200 page yields the blank-line join of its non-empty stripped element texts exactly when that join is longer than 100 characters |
| AiService.Scrape | ai_service/main.py:30-84 | the result is "" or longer than 100 characters; it is non-empty exactly when one strategy succeeds; the JSON strategy wins when both do |
| AiService.ScrapeAsksOnlyTwoAddresses | ai_service/main.py:39-64 | the scraped content depends only on the answers for the JSON API address and for the URL itself |
| AiService.JsonThreshold | ai_service/main.py:52-53 | the JSON content is accepted exactly when the paragraph lengths plus the newlines between them exceed 100 |
| AiService.HtmlThreshold | ai_service/main.py:74-76 | the HTML content is accepted exactly when the kept pieces plus two characters per gap exceed 100 |
| AiService.Truncate | ai_service/main.py:126-127 | the model input is a prefix of the content, at most 5000 long, the whole content when that fits, and exactly 5000 long otherwise |
| AiService.Summarize | ai_service/main.py:113-135 | empty scraped content answers 400 and the model is never invoked; otherwise the model gets exactly the first min(n, 5000) characters of the scraped content (101 to 5000 of them), and its answer is returned, or 500 with its error |
| Text.Join | ai_service/main.py:52 | Python's `sep.join`: "" for no parts and the part itself for one; JoinLength and JoinPlacesPart fix the rest |
| Text.JoinLength | ai_service/main.py:52-53 | a join is as long as its parts plus one separator per gap |
| Text.JoinPlacesPart | ai_service/main.py:52 | each part appears intact, in order, at its offset in the join, followed by the separator unless it is last |
| Pipeline.ToClient | backend/controllers/article_controller.go:117 | the client reads back the id, title, URL, summary, tags (null included) and timestamp the server serialised |
| Pipeline.ToClientAll | backend/controllers/article_controller.go:117 | one client article per stored article, in order |
| Pipeline.ClientLoad | frontend/app/page.tsx:26-28 | the page's list outcome is a throw exactly when the request fails; an error body reads as a missing list, a null `data` as a missing list, and an array as the articles in order |
| Pipeline.ClientSubmit | frontend/app/page.tsx:43-49 | `handleSubmit` sees a throw exactly when the POST itself failed, and otherwise the response's status, which decides `res.ok` |
| Pipeline.ClientListMirrorsStore | backend/controllers/article_controller.go:95-117 | after a list request that reaches the backend, the client shows exactly the stored articles in cursor order, with [] for an empty collection; any server error empties the list (page.tsx:28) |
| Pipeline.BindForm | backend/controllers/article_controller.go:42-48 | the client's body binds to an article with only URL and content set, with an empty title and the zero id |
| Pipeline.SubmitClearsDraftIffStored | frontend/app/page.tsx:42-56 | a submit that reaches the backend clears the draft and reloads exactly when the article was stored, and alerts exactly when it was not |
| Pipeline.GoReply | backend/controllers/article_controller.go:135-148 | Go receives a 200 answer as the decoded title, summary and tags, and an error answer (main.py:121, 135) with its own status, so it is rejected before decoding |
| Pipeline.Summariser | backend/controllers/article_controller.go:129-137 | a lost POST fails for every request; a delivered one gets the endpoint's answer to the request's URL alone |
| Pipeline.ToArticleRequest | ai_service/main.py:110-111 | the endpoint reads only `url` from the backend's request |
| Pipeline.PastedContentIsIgnored | ai_service/main.py:110-118 | two drafts with the same URL get the same stored title, summary and tags, whatever content was pasted; the pasted content is still stored |
| Pipeline.UnscrapablePageGetsPlaceholders | ai_service/main.py:118-121 | when neither strategy scrapes the page, the article is stored with the failure title, summary and tags, even if the user pasted its text |
| Pipeline.ScrapedPageGetsModelAnswer | ai_service/main.py:126-135 | a scraped page whose answer reaches the backend is stored with the model's answer on its truncated text, or with the failure title, summary and tags when the model fails (the bound title is empty) |
| Pipeline.LostReplyGetsPlaceholders | backend/controllers/article_controller.go:134-137 | when the backend's POST is refused or hits its 90-second timeout, the failure title, summary and tags are stored, whatever the scraper and model would have produced |
| Pipeline.SubmitThenReloadExample | frontend/app/page.tsx:49-51 | a draft for https://example.com/post is accepted: the draft resets, one reload is requested, and the reloaded card shows "Post" with chips "#go" and "#ai" |

## Left out

- Network, database and framework wiring are not modelled. This covers the `fetch` calls, gin routing and CORS, the MongoDB connection, `requests.get` and uvicorn (backend/main.go, backend/routes/route.go, backend/configs/setup.go). Their outcomes are parameters: `LoadOutcome`, `SubmitOutcome`, `PostOutcome`, `InsertOutcome`, `FindOutcome`, `HttpReply`.
- React rendering, JSX markup and styling are not modelled. Only the state record and the title and tag derivations are.
- The card's hostname (`new URL(...).hostname`) and date (`toLocaleDateString`) are not modelled. They rely on the WHATWG URL parser and on locale data, and the code throws on a bad URL instead of degrading.
- BeautifulSoup element selection, `json.loads` and the navigation to `paragraphs` are parameters of `Web`. Python's Unicode-aware `str.strip` is one too.
- `JsonPayload.ShapeError` covers every non-decode exception of the JSON strategy; all of them fall through to the HTML strategy, as the code's outer `except` does.
- The language-model chain, its prompt and `PydanticOutputParser` are a parameter `string -> ModelOutcome`.
- ai_service/try.py is a scratch copy of the scraper and is not part of this model.
- The 10-, 90-, 100- and 120-second durations are not modelled. A timeout is one more failed outcome: `Raised` in the scraper, `LoadThrew`/`SubmitThrew` on the page, and the `Lost` transport of `Pipeline.Summariser` for the backend's POST. The 120-second context of `CreateArticle` surfaces as `InsertFailed`, and the 10-second context of `GetArticles` as `FindFailed` or as a cursor cut short.
- `time.Now()` is the `now` parameter. The RFC 3339 text of `created_at` is not modelled: client and server share the `Timestamp` value.
- The Go error texts built from `AiError`, and the console messages, are only logged, so they are not modelled. The HTTP error bodies and the alert text are modelled.
- MongoDB assigns the stored document's `_id` (the field is `omitempty` and zero in memory), and the model takes that id from the insert outcome. A cursor error mid-iteration is not checked by the code; the model reads the cursor's documents as those `Next` produced before it returned false.
- Page.Enabled: the click guard checks that the URL field is non-empty but not the browser's `type="url"` syntax check, which needs the URL parser.
- Python's `len` counts code points, and Dafny `char` is a Unicode scalar value. Strings with lone surrogates are outside the model.
- Responses that arrive after the page is unmounted are not modelled; the code applies every response it receives.
