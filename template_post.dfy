/** The template detail page (src/pages/TemplatePost.tsx): the lookup of the
    route's slug in the fetched mapping, the page's template, loading and
    error state, one liveness flag per effect run (the effect re-runs when the
    slug changes), what the page renders, and the "View Template" link. */
module TemplatePost {
  import opened Wrappers
  import opened JsonValue
  import opened ContentSource

  const NotFoundError := "Template not found"
  const LoadFailure := "Failed to load template"
  /** The heading shown when there is no error message and no template. */
  const NotFoundTitle := "Template Not Found"
  const BackRoute := "/templates"

  /** `slug` from the route is truthy: present and not empty. */
  predicate HasSlug(slug: Option<string>) {
    slug.Some? && slug.value != ""
  }

  /** What `data[slug]` gives once the body is available. */
  datatype Lookup = Found(template: Json) | Missing | Failed(cause: Exception)

  /** The `try` block up to its commits: fetch, unwrap, then `data[slug]`,
      which counts as found only when truthy. */
  function LookupTemplate(f: Fetched, slug: string): (r: Lookup)
    ensures r.Failed? <==> FetchData(f).Err?
    ensures r.Found? <==> FetchData(f).Ok? && TruthyProp(FetchData(f).value, slug)
    ensures r.Found? ==> Get(FetchData(f).value, slug) == Some(r.template) && Truthy(r.template)
  {
    match FetchData(f)
    case Err(e) => Failed(e)
    case Ok(data) => if TruthyProp(data, slug) then Found(Get(data, slug).value) else Missing
  }

  /** Without a wrapper every slug is missing. */
  lemma NoWrapperNothingFound(status: int, dataArray: Json, slug: string)
    requires ResponseOk(status)
    requires dataArray == JArr([]) ||
             (dataArray.JArr? && |dataArray.items| > 0 && !TruthyProp(dataArray.items[0], "data")) ||
             (dataArray.JObj? && !HasKey(dataArray.fields, "0"))
    ensures LookupTemplate(Response(status, Parsed(dataArray)), slug) == Missing
  {
    var f := Response(status, Parsed(dataArray));
    assert FetchJson(f) == Ok(dataArray);
    assert FetchData(f) == UnwrapData(dataArray) == Ok(JObj([]));
    assert Get(JObj([]), slug) == None;
  }

  /** A JSON `null` body throws while unwrapping. */
  lemma NullBodyFails(status: int, slug: string)
    requires ResponseOk(status)
    ensures LookupTemplate(Response(status, Parsed(JNull)), slug) == Failed(TypeError)
  {
  }

  // ---------------------------------------------------------------------------
  // Page state

  /** The three state variables of the page. */
  datatype DetailState = DetailState(template: Option<Json>, loading: bool, error: Option<string>)

  /** `useState(null)`, `useState(true)`, `useState(null)`. */
  const InitialDetail := DetailState(None, true, None)

  /** The effect body up to the await. Without a slug: `setTemplate(null)`,
      `setLoading(false)` and return, with no fetch and `error` untouched.
      With one: `setLoading(true)`, `setError(null)`. */
  function DetailAfterStart(s: DetailState, slug: Option<string>): (r: DetailState)
    ensures !HasSlug(slug) ==> r.template == None && !r.loading && r.error == s.error
    ensures HasSlug(slug) ==> r.loading && r.error == None && r.template == s.template
  {
    if !HasSlug(slug) then s.(template := None, loading := false)
    else s.(loading := true, error := None)
  }

  /** The commits after the await, for a run that is still mounted. */
  function DetailAfterSettle(s: DetailState, slug: string, f: Fetched): (r: DetailState)
    ensures !r.loading
    ensures r.template.Some? <==> LookupTemplate(f, slug).Found?
    ensures LookupTemplate(f, slug).Found? ==>
      r.template == Some(Get(FetchData(f).value, slug).value) && r.error == s.error
    ensures LookupTemplate(f, slug).Missing? ==> r.error == Some(NotFoundError)
    ensures FetchData(f).Err? ==> r.error == Some(LoadFailure)
  {
    match LookupTemplate(f, slug)
    case Found(t) => DetailState(Some(t), false, s.error)
    case Missing => DetailState(None, false, Some(NotFoundError))
    case Failed(_) => DetailState(None, false, Some(LoadFailure))
  }

  /** What the page shows. */
  datatype DetailScreen =
    | LoadingTemplate
    | NotFound(message: string, backRoute: string)
    | Article(template: Json)

  /** `if (loading) ...; if (error || !template) ...; return article`. */
  function RenderDetail(s: DetailState): (r: DetailScreen)
    ensures r.LoadingTemplate? <==> s.loading
    ensures r.Article? <==> !s.loading && !TruthyText(s.error) && s.template.Some? && Truthy(s.template.value)
    ensures r.Article? ==> r.template == s.template.value
    ensures r.NotFound? ==> r.backRoute == BackRoute
    ensures r.NotFound? ==> r.message == if TruthyText(s.error) then s.error.value else NotFoundTitle
  {
    if s.loading then LoadingTemplate
    else if TruthyText(s.error) || s.template.None? || !Truthy(s.template.value) then
      NotFound(if TruthyText(s.error) then s.error.value else NotFoundTitle, BackRoute)
    else Article(s.template.value)
  }

  /** One mounted load for a slug ends on the article, the not-found message,
      or the load-failure message, whatever the state before. */
  lemma LoadEndsOnArticleOrMessage(s: DetailState, slug: string, f: Fetched)
    requires slug != ""
    ensures RenderDetail(DetailAfterSettle(DetailAfterStart(s, Some(slug)), slug, f)) ==
      match LookupTemplate(f, slug)
      case Found(t) => Article(t)
      case Missing => NotFound(NotFoundError, BackRoute)
      case Failed(_) => NotFound(LoadFailure, BackRoute)
  {
  }

  /** With no slug on first render the page shows the not-found heading. */
  lemma NoSlugShowsNotFound(slug: Option<string>)
    requires !HasSlug(slug)
    ensures RenderDetail(DetailAfterStart(InitialDetail, slug)) == NotFound(NotFoundTitle, BackRoute)
  {
  }

  /** `handleViewTemplate`: the link to open, present only when
      `template?.link` is truthy. */
  function ViewTemplateLink(template: Option<Json>): (r: Option<Json>)
    ensures r.Some? <==> template.Some? && TruthyProp(template.value, "link")
    ensures r.Some? ==> Get(template.value, "link") == r && Truthy(r.value)
  {
    if template.Some? && TruthyProp(template.value, "link") then Get(template.value, "link") else None
  }

  /** The page component's state variables. */
  class Page {
    var template: Option<Json>
    var loading: bool
    var error: Option<string>

    function State(): DetailState
      reads this
    {
      DetailState(template, loading, error)
    }

    /** The first render. */
    constructor ()
      ensures State() == InitialDetail
    {
      template, loading, error := None, true, None;
    }
  }

  /** One run of the effect for one value of `slug`, with its own `isMounted`. */
  class Effect {
    const page: Page
    const slug: Option<string>
    var isMounted: bool

    /** `let isMounted = true`. */
    constructor (page: Page, slug: Option<string>)
      ensures this.page == page && this.slug == slug && isMounted
    {
      this.page := page;
      this.slug := slug;
      isMounted := true;
    }

    /** `fetchTemplates()` up to the await; it runs while mounted, so its
        commits are not guarded. Returns whether a fetch was started. */
    method Start() returns (fetching: bool)
      modifies page
      ensures fetching == HasSlug(slug)
      ensures page.State() == DetailAfterStart(old(page.State()), slug)
    {
      if !HasSlug(slug) {
        page.template := None;
        page.loading := false;
        return false;
      }
      page.loading := true;
      page.error := None;
      return true;
    }

    /** The rest of `fetchTemplates` once the fetch has settled with `f`:
        every commit checks this run's `isMounted`. */
    method Settle(f: Fetched)
      requires HasSlug(slug)
      modifies page
      ensures page.State() == if isMounted then DetailAfterSettle(old(page.State()), slug.value, f) else old(page.State())
    {
      var lookup := LookupTemplate(f, slug.value);
      match lookup {
        case Found(t) =>
          if isMounted {
            page.template := Some(t);
          }
        case Missing =>
          if isMounted {
            page.template := None;
            page.error := Some(NotFoundError);
          }
        case Failed(_) =>
          if isMounted {
            page.error := Some(LoadFailure);
            page.template := None;
          }
      }
      if isMounted {
        page.loading := false;
      }
    }

    /** The cleanup on unmount or slug change: `isMounted = false`. */
    method Cleanup()
      modifies this
      ensures !isMounted
    {
      isMounted := false;
    }
  }

  /** The slug changes from `a` to `b` before `a`'s fetch settles, and `a`'s
      result arrives last: the page shows `b`'s outcome only. */
  method SlugChangeDiscardsStaleResult(a: string, b: string, fa: Fetched, fb: Fetched) returns (page: Page)
    requires a != "" && b != ""
    ensures page.State() == DetailAfterSettle(DetailState(None, true, None), b, fb)
  {
    page := new Page();
    var runA := new Effect(page, Some(a));
    var started := runA.Start();
    runA.Cleanup();
    var runB := new Effect(page, Some(b));
    started := runB.Start();
    runB.Settle(fb);
    runA.Settle(fa);
  }
}
