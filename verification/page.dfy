/** The client page (`frontend/app/page.tsx`) as a state record with pure
    transitions. Every network outcome is an input, and every side effect
    the page starts (a request, an alert, a console message) is returned as
    an `Effect`. */
module Page {
  import opened Common

  const UntitledLabel := "Untitled Article"
  const SubmitFailedAlert := "提交失敗，請檢查後端 logs"
  const TagPrefix := "#"

  /** The client's view of an article. `tags` may be `null` on the wire. */
  datatype Article = Article(
    id: string,
    title: string,
    url: string,
    summary: string,
    tags: Option<seq<string>>,
    createdAt: Timestamp)

  /** The draft being typed, posted verbatim as the request body. */
  datatype Form = Form(url: string, content: string)

  const EmptyForm := Form("", "")

  /** The page's three pieces of state. */
  datatype State = State(articles: seq<Article>, loading: bool, form: Form)

  datatype Field = UrlField | ContentField

  /** How one list request ended: the fetch or `res.json()` threw, or the
      body parsed and `data.data` was read (`None` for missing, null or any
      other falsy value). The status code is never looked at. */
  datatype LoadOutcome = LoadThrew | LoadParsed(data: Option<seq<Article>>)

  /** How one submit request ended: it threw, or it answered with a status. */
  datatype SubmitOutcome = SubmitThrew | SubmitResponded(status: int)

  datatype Effect =
    | FetchArticles
    | PostArticle(body: Form)
    | ShowAlert(message: string)
    | LogError

  /** A new state together with the effects started on the way to it. */
  datatype Step = Step(state: State, effects: seq<Effect>)

  /** The Fetch API's `res.ok`. */
  predicate IsOk(status: int) {
    200 <= status <= 299
  }

  /** The state before anything has happened. */
  function Initial(): (s: State)
    ensures s.articles == [] && !s.loading && s.form.url == "" && s.form.content == ""
  {
    State([], false, EmptyForm)
  }

  /** Mounting the page starts exactly one list request. */
  function Mount(): (step: Step)
    ensures step.state == Initial()
    ensures step.effects == [FetchArticles]
  {
    Step(Initial(), [FetchArticles])
  }

  /** An `onChange` of one input: that field takes the typed value. */
  function Edit(s: State, field: Field, value: string): (t: State)
    ensures t.articles == s.articles && t.loading == s.loading
    ensures field == UrlField ==> t.form.url == value && t.form.content == s.form.content
    ensures field == ContentField ==> t.form.content == value && t.form.url == s.form.url
  {
    match field
    case UrlField => s.(form := s.form.(url := value))
    case ContentField => s.(form := s.form.(content := value))
  }

  /** The end of `fetchArticles`: a parsed body replaces the whole list with
      `data.data || []`; a throw leaves the page as it was. */
  function ApplyLoad(s: State, outcome: LoadOutcome): (t: State)
    ensures t.loading == s.loading && t.form == s.form
    ensures outcome.LoadThrew? ==> t == s
    ensures outcome.LoadParsed? && outcome.data.Some? ==> t.articles == outcome.data.value
    ensures outcome.LoadParsed? && outcome.data.None? ==> t.articles == []
  {
    match outcome
    case LoadThrew => s
    case LoadParsed(data) => s.(articles := data.GetOr([]))
  }

  /** The start of `handleSubmit`: `loading` goes up and the current draft
      is posted. The handler itself does not look at `loading`. */
  function StartSubmit(s: State): (step: Step)
    ensures step.state.loading
    ensures step.state.articles == s.articles && step.state.form == s.form
    ensures step.effects == [PostArticle(s.form)]
  {
    Step(s.(loading := true), [PostArticle(s.form)])
  }

  /** The end of `handleSubmit`. An ok answer clears the draft and requests
      one reload; a non-ok answer alerts; a throw only logs; `loading` always
      drops. */
  function FinishSubmit(s: State, outcome: SubmitOutcome): (step: Step)
    ensures !step.state.loading
    ensures step.state.articles == s.articles
    ensures outcome.SubmitResponded? && IsOk(outcome.status) ==>
              step.state.form == EmptyForm && step.effects == [FetchArticles]
    ensures !(outcome.SubmitResponded? && IsOk(outcome.status)) ==>
              step.state.form == s.form && FetchArticles !in step.effects
    ensures ShowAlert(SubmitFailedAlert) in step.effects <==>
              outcome.SubmitResponded? && !IsOk(outcome.status)
    ensures outcome.SubmitThrew? ==> step.effects == [LogError]
    ensures outcome.SubmitResponded? && !IsOk(outcome.status) ==>
              step.effects == [ShowAlert(SubmitFailedAlert)]
  {
    match outcome
    case SubmitThrew => Step(s.(loading := false), [LogError])
    case SubmitResponded(status) =>
      if IsOk(status) then Step(s.(loading := false, form := EmptyForm), [FetchArticles])
      else Step(s.(loading := false), [ShowAlert(SubmitFailedAlert)])
  }

  /** The submit button's `disabled` attribute. */
  predicate SubmitDisabled(s: State) {
    s.loading
  }

  /** The heading of an article card. */
  function DisplayTitle(a: Article): (t: string)
    ensures t != ""
    ensures a.title != "" ==> t == a.title
    ensures a.title == "" ==> t == UntitledLabel
  {
    if a.title != "" then a.title else UntitledLabel
  }

  /** One chip per tag, in order. */
  function Chips(tags: seq<string>): (chips: seq<string>)
    ensures |chips| == |tags|
    ensures forall i :: 0 <= i < |tags| ==> chips[i] == TagPrefix + tags[i]
    decreases |tags|
  {
    if |tags| == 0 then [] else [TagPrefix + tags[0]] + Chips(tags[1..])
  }

  /** The tag chips of an article card: none for null or empty tags. */
  function TagChips(a: Article): (chips: seq<string>)
    ensures chips == [] <==> a.tags.None? || a.tags.value == []
    ensures a.tags.Some? ==> |chips| == |a.tags.value|
    ensures a.tags.Some? ==> forall i :: 0 <= i < |chips| ==> chips[i] == TagPrefix + a.tags.value[i]
  {
    match a.tags
    case None => []
    case Some(tags) => if |tags| > 0 then Chips(tags) else []
  }

  /** Removing the "#" from each chip gives back the tags. */
  lemma ChipsRecoverTags(tags: seq<string>)
    ensures forall i :: 0 <= i < |tags| ==>
              |Chips(tags)[i]| >= 1 && Chips(tags)[i][1..] == tags[i]
  {
  }

  /** Loading the same outcome twice is the same as loading it once. */
  lemma LoadIdempotent(s: State, outcome: LoadOutcome)
    ensures ApplyLoad(ApplyLoad(s, outcome), outcome) == ApplyLoad(s, outcome)
  {
  }

  /** A parsed load wipes out whatever an earlier load left: the list is
      replaced as a whole, never merged. */
  lemma LastParsedLoadWins(s: State, first: LoadOutcome, second: LoadOutcome)
    requires second.LoadParsed?
    ensures ApplyLoad(ApplyLoad(s, first), second) == ApplyLoad(s, second)
  {
  }

  /** Edits of different fields commute; of the same field, the last wins. */
  lemma EditsCommute(s: State, v: string, w: string)
    ensures Edit(Edit(s, UrlField, v), ContentField, w) == Edit(Edit(s, ContentField, w), UrlField, v)
    ensures Edit(Edit(s, UrlField, v), UrlField, w) == Edit(s, UrlField, w)
    ensures Edit(Edit(s, ContentField, v), ContentField, w) == Edit(s, ContentField, w)
  {
  }

  /** After a failed submit, submitting again posts the very same draft. */
  lemma RetryPostsSameDraft(s: State, outcome: SubmitOutcome)
    requires !(outcome.SubmitResponded? && IsOk(outcome.status))
    ensures StartSubmit(FinishSubmit(StartSubmit(s).state, outcome).state).effects == [PostArticle(s.form)]
  {
  }

  /** A successful submit clears the draft even when it was edited while the
      request was pending. */
  lemma SuccessDiscardsPendingEdits(s: State, field: Field, value: string, status: int)
    requires IsOk(status)
    ensures FinishSubmit(Edit(StartSubmit(s).state, field, value), SubmitResponded(status)).state.form == EmptyForm
  {
  }

  // ---------------------------------------------------------------------
  // A session: the page plus the requests it has in flight, driven by the
  // events the browser delivers.
  // ---------------------------------------------------------------------

  datatype Event =
    | Typed(field: Field, value: string)
    | SubmitClicked
    | SubmitSettled(submit: SubmitOutcome)
    | ListSettled(load: LoadOutcome)

  datatype Session = Session(page: State, pendingSubmits: nat, pendingLoads: nat)

  /** How many list requests a sequence of effects starts. */
  function Fetches(effects: seq<Effect>): (n: nat)
    ensures n == multiset(effects)[FetchArticles]
    decreases |effects|
  {
    if |effects| == 0 then 0
    else
      assert effects == [effects[0]] + effects[1..];
      (if effects[0] == FetchArticles then 1 else 0) + Fetches(effects[1..])
  }

  /** The session right after mounting: one list request in flight. */
  function Mounted(): (x: Session)
    ensures x.page == Initial() && x.pendingSubmits == 0 && x.pendingLoads == 1
  {
    Session(Mount().state, 0, Fetches(Mount().effects))
  }

  /** Whether the browser can deliver the event: a click only reaches the
      handler while the button is enabled and the required URL field is
      filled; a settlement only happens for a request in flight. */
  predicate Enabled(x: Session, e: Event) {
    match e
    case Typed(_, _) => true
    case SubmitClicked => !SubmitDisabled(x.page) && x.page.form.url != ""
    case SubmitSettled(_) => x.pendingSubmits > 0
    case ListSettled(_) => x.pendingLoads > 0
  }

  /** The session after one enabled event. */
  function Next(x: Session, e: Event): (y: Session)
    requires Enabled(x, e)
    ensures e.SubmitClicked? ==> y.pendingSubmits == x.pendingSubmits + 1 && SubmitDisabled(y.page)
    ensures e.SubmitSettled? ==> y.pendingSubmits == x.pendingSubmits - 1 && !SubmitDisabled(y.page)
    ensures e.Typed? || e.ListSettled? ==>
              y.pendingSubmits == x.pendingSubmits && y.page.loading == x.page.loading
    ensures e.ListSettled? ==> y.pendingLoads == x.pendingLoads - 1
    ensures e.Typed? ==> y.page == Edit(x.page, e.field, e.value) && y.pendingLoads == x.pendingLoads
    ensures e.SubmitClicked? ==> y.page == StartSubmit(x.page).state && y.pendingLoads == x.pendingLoads
    ensures e.SubmitSettled? ==> y.page == FinishSubmit(x.page, e.submit).state
    ensures e.ListSettled? ==> y.page == ApplyLoad(x.page, e.load)
  {
    match e
    case Typed(f, v) => x.(page := Edit(x.page, f, v))
    case SubmitClicked => Session(StartSubmit(x.page).state, x.pendingSubmits + 1, x.pendingLoads)
    case SubmitSettled(o) =>
      var step := FinishSubmit(x.page, o);
      Session(step.state, x.pendingSubmits - 1, x.pendingLoads + Fetches(step.effects))
    case ListSettled(o) => Session(ApplyLoad(x.page, o), x.pendingSubmits, x.pendingLoads - 1)
  }

  /** Running a sequence of events; `None` if one of them cannot happen. */
  function Run(x: Session, events: seq<Event>): Option<Session>
    decreases |events|
  {
    if |events| == 0 then Some(x)
    else if !Enabled(x, events[0]) then None
    else Run(Next(x, events[0]), events[1..])
  }

  /** A settled submit adds exactly one list request in flight when it was
      ok, and none otherwise. */
  lemma SettledSubmitStartsOneLoad(x: Session, o: SubmitOutcome)
    requires x.pendingSubmits > 0
    ensures Next(x, SubmitSettled(o)).pendingLoads ==
            x.pendingLoads + (if o.SubmitResponded? && IsOk(o.status) then 1 else 0)
  {
  }

  /** The button is disabled exactly while one submit is in flight, and
      never more than one is. */
  predicate SubmitInvariant(x: Session) {
    x.pendingSubmits <= 1 && (SubmitDisabled(x.page) <==> x.pendingSubmits == 1)
  }

  lemma NextKeepsSubmitInvariant(x: Session, e: Event)
    requires SubmitInvariant(x) && Enabled(x, e)
    ensures SubmitInvariant(Next(x, e))
  {
  }

  /** From mounting on, whatever the browser delivers, the disabled button is
      the only guard against a second submit and it suffices: at most one
      submit is ever in flight, and `loading` says exactly whether one is. */
  lemma {:induction false} RunKeepsSubmitInvariant(x: Session, events: seq<Event>)
    requires SubmitInvariant(x)
    ensures Run(x, events).Some? ==> SubmitInvariant(Run(x, events).value)
    decreases |events|
  {
    if |events| > 0 && Enabled(x, events[0]) {
      NextKeepsSubmitInvariant(x, events[0]);
      RunKeepsSubmitInvariant(Next(x, events[0]), events[1..]);
    }
  }

  lemma MountedKeepsSubmitInvariant(events: seq<Event>)
    ensures Run(Mounted(), events).Some? ==> SubmitInvariant(Run(Mounted(), events).value)
  {
    RunKeepsSubmitInvariant(Mounted(), events);
  }
}
