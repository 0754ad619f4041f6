/** The template gallery page (src/pages/Templates.tsx): the transform that
    turns the fetched mapping into a list of cards, the page's loading, error
    and templates state with its liveness flag, what the page renders, and the
    route a card click navigates to. */
module Templates {
  import opened Wrappers
  import opened JsonValue
  import opened ContentSource
  import opened TagStrip

  /** How many characters of `content` an excerpt keeps before stripping. */
  const ExcerptLength := 150
  const Ellipsis := "..."
  /** `undefined + "..."` converts `undefined` to this text. */
  const UndefinedText := "undefined"
  /** The message the page shows when loading fails. */
  const LoadError := "Failed to load templates"
  const RoutePrefix := "/templates/"

  // ---------------------------------------------------------------------------
  // Excerpt and description

  /** `text.substring(0, n)`. */
  function Prefix(text: string, n: nat): (r: string)
    ensures |r| == (if |text| < n then |text| else n)
    ensures r == text[..|r|]
  {
    text[..if |text| < n then |text| else n]
  }

  /** `content.substring(0, 150).replace(/<\/?[^>]+(>|$)/g, "") + "..."`:
      truncation comes first, then tag stripping, then the ellipsis. */
  function Excerpt(text: string): (r: string)
    ensures |r| <= ExcerptLength + |Ellipsis|
    ensures |r| >= |Ellipsis| && r[|r| - |Ellipsis|..] == Ellipsis
    ensures IsSubsequence(r[..|r| - |Ellipsis|], Prefix(text, ExcerptLength))
    ensures TagFree(r[..|r| - |Ellipsis|])
    ensures '<' !in text ==> r == Prefix(text, ExcerptLength) + Ellipsis
  {
    var head := Prefix(text, ExcerptLength);
    var stripped := StripTags(head);
    StripTagsIsSubsequence(head);
    StripTagsIsTagFree(head);
    var r := stripped + Ellipsis;
    assert r[..|r| - |Ellipsis|] == stripped;
    if '<' in head then r
    else
      NoOpenerUnchanged(head);
      r
  }

  /** `template.content` is missing or `null`, so `?.` short-circuits. */
  predicate ContentAbsent(template: Json) {
    var c := Get(template, "content");
    c.None? || c.value == JNull
  }

  /** `template.content` is a string. */
  predicate ContentText(template: Json) {
    var c := Get(template, "content");
    c.Some? && c.value.JStr?
  }

  /** `template.description || template.content?.substring(0, 150).replace(...) + "..."`.
      Reading a property of `null` throws; so does calling `substring` on a
      `content` that is neither a string nor `null`/missing. A missing or
      `null` content short-circuits the chain to `undefined`. */
  function Description(template: Json): (r: Result<Json, Exception>)
    ensures r.Err? ==> r.error == TypeError
    ensures r.Ok? ==> Truthy(r.value)
  {
    if template == JNull then Err(TypeError)
    else if TruthyProp(template, "description") then Ok(Get(template, "description").value)
    else match Get(template, "content")
      case None => Ok(JStr(UndefinedText + Ellipsis))
      case Some(content) =>
        match content
        case JNull => Ok(JStr(UndefinedText + Ellipsis))
        case JStr(text) => Ok(JStr(Excerpt(text)))
        case _ => Err(TypeError)
  }

  /** The cases of the description rule: a truthy description is kept as it
      is; otherwise the excerpt of a string content, or `"undefined..."` when
      content is missing or `null`; anything else throws. A derived
      description is at most 153 characters long. */
  lemma DescriptionCases(template: Json)
    ensures Description(template).Err? <==> (template == JNull ||
      (!TruthyProp(template, "description") && !ContentAbsent(template) && !ContentText(template)))
    ensures template != JNull && TruthyProp(template, "description") ==>
      Description(template) == Ok(Get(template, "description").value)
    ensures Description(template).Ok? && !TruthyProp(template, "description") ==>
      Description(template).value.JStr? && |Description(template).value.s| <= ExcerptLength + |Ellipsis|
    ensures (template != JNull && !TruthyProp(template, "description") && ContentAbsent(template)) ==>
      Description(template) == Ok(JStr(UndefinedText + Ellipsis))
    ensures (!TruthyProp(template, "description") && ContentText(template)) ==>
      Description(template) == Ok(JStr(Excerpt(Get(template, "content").value.s)))
  {
  }

  // ---------------------------------------------------------------------------
  // From the mapping to cards

  /** `({...template, slug, description: ...})` for one mapping entry. */
  function Card(key: string, template: Json): (r: Result<Json, Exception>)
    ensures r.Ok? <==> Description(template).Ok?
  {
    match Description(template)
    case Err(e) => Err(e)
    case Ok(description) =>
      Ok(JObj(Put(Put(OwnEntries(template), "slug", JStr(key)), "description", description)))
  }

  /** A card carries its key as `slug`, overriding any `slug` of the
      template, the derived or kept description, and every other property of
      the template unchanged. */
  lemma CardFields(key: string, template: Json)
    requires Description(template).Ok?
    ensures Card(key, template).value.JObj?
    ensures Get(Card(key, template).value, "slug") == Some(JStr(key))
    ensures Get(Card(key, template).value, "description") == Some(Description(template).value)
    ensures forall k :: k != "slug" && k != "description" ==>
      Get(Card(key, template).value, k) == Get(template, k)
  {
  }

  /** A card fails exactly when its description throws. */
  lemma CardFails(key: string, template: Json)
    requires Card(key, template).Err?
    ensures Card(key, template).error == TypeError
  {
  }

  /** `xs.map(f)` where `f` may throw: the first element that throws aborts
      the whole map. */
  function MapOrThrow<A, B, E>(xs: seq<A>, f: A -> Result<B, E>): (r: Result<seq<B>, E>)
    ensures r.Ok? <==> forall i :: 0 <= i < |xs| ==> f(xs[i]).Ok?
    ensures r.Ok? ==> |r.value| == |xs|
    ensures r.Ok? ==> forall i :: 0 <= i < |xs| ==> f(xs[i]) == Ok(r.value[i])
  {
    if xs == [] then Ok([])
    else
      var tail := xs[1..];
      assert forall i :: 0 < i < |xs| ==> tail[i - 1] == xs[i];
      match f(xs[0])
      case Err(e) => Err(e)
      case Ok(first) =>
        match MapOrThrow(tail, f)
        case Err(e) => Err(e)
        case Ok(rest) =>
          var r := [first] + rest;
          assert forall i :: 0 < i < |r| ==> r[i] == rest[i - 1];
          Ok(r)
  }

  /** `Object.entries(data).map(...)`: one card per entry, in entry order; the
      first entry that throws aborts the whole map. */
  function Cards(entries: seq<(string, Json)>): (r: Result<seq<Json>, Exception>)
    ensures r.Ok? <==> forall i :: 0 <= i < |entries| ==> Card(entries[i].0, entries[i].1).Ok?
    ensures r.Ok? ==> |r.value| == |entries|
    ensures r.Ok? ==> forall i :: 0 <= i < |entries| ==> Card(entries[i].0, entries[i].1) == Ok(r.value[i])
  {
    MapOrThrow(entries, (e: (string, Json)) => Card(e.0, e.1))
  }

  // ---------------------------------------------------------------------------
  // Newest first

  /** `new Date(card.date).getTime()`, with date parsing left abstract:
      `timeOf` maps the `date` property (or its absence) to a timestamp. */
  function Stamp(card: Json, timeOf: Option<Json> -> int): int {
    timeOf(Get(card, "date"))
  }

  /** No element ranks below an element after it. */
  predicate Descending<T>(s: seq<T>, rank: T -> int) {
    forall i, j :: 0 <= i < j < |s| ==> rank(s[i]) >= rank(s[j])
  }

  /** No card is older than a card after it. */
  predicate NewestFirst(cards: seq<Json>, timeOf: Option<Json> -> int) {
    Descending(cards, c => Stamp(c, timeOf))
  }

  lemma PrependDescending<T>(x: T, s: seq<T>, rank: T -> int)
    requires Descending(s, rank)
    requires s == [] || rank(x) >= rank(s[0])
    ensures Descending([x] + s, rank)
  {
    var r := [x] + s;
    forall i, j | 0 <= i < j < |r| ensures rank(r[i]) >= rank(r[j]) {
      if i == 0 {
        assert r[j] == s[j - 1];
        if j > 1 {
          assert rank(s[0]) >= rank(s[j - 1]);
        }
      } else {
        assert r[i] == s[i - 1] && r[j] == s[j - 1];
      }
    }
  }

  /** Inserts `x` before the first element that ranks no higher. */
  function InsertDescending<T>(x: T, s: seq<T>, rank: T -> int): (r: seq<T>)
    requires Descending(s, rank)
    ensures Descending(r, rank)
    ensures multiset(r) == multiset(s) + multiset{x}
    ensures r[0] == x || (s != [] && r[0] == s[0])
  {
    if s == [] || rank(x) >= rank(s[0]) then
      PrependDescending(x, s, rank);
      [x] + s
    else
      var tail := s[1..];
      assert Descending(tail, rank) by {
        forall i, j | 0 <= i < j < |tail| ensures rank(tail[i]) >= rank(tail[j]) {
          assert tail[i] == s[i + 1] && tail[j] == s[j + 1];
        }
      }
      var rest := InsertDescending(x, tail, rank);
      assert tail != [] ==> rank(s[0]) >= rank(tail[0]);
      PrependDescending(s[0], rest, rank);
      assert s == [s[0]] + tail;
      [s[0]] + rest
  }

  /** Insertion sort into descending rank. */
  function SortDescending<T>(s: seq<T>, rank: T -> int): (r: seq<T>)
    ensures Descending(r, rank)
    ensures multiset(r) == multiset(s)
  {
    if s == [] then []
    else
      assert s == [s[0]] + s[1..];
      InsertDescending(s[0], SortDescending(s[1..], rank), rank)
  }

  /** `templatesArray.sort((a, b) => dateB - dateA)`: a newest-first
      rearrangement of the cards. The insertion places each card before the
      first one no newer, so cards with equal timestamps keep their order. */
  function SortNewestFirst(cards: seq<Json>, timeOf: Option<Json> -> int): (r: seq<Json>)
    ensures NewestFirst(r, timeOf)
    ensures multiset(r) == multiset(cards)
  {
    SortDescending(cards, c => Stamp(c, timeOf))
  }

  /** The list the page stores, computed from the unwrapped mapping. */
  function TemplatesFrom(data: Json, timeOf: Option<Json> -> int): (r: Result<seq<Json>, Exception>)
    ensures r.Ok? <==> Cards(OwnEntries(data)).Ok?
    ensures r.Ok? ==> NewestFirst(r.value, timeOf)
    ensures r.Ok? ==> multiset(r.value) == multiset(Cards(OwnEntries(data)).value)
    ensures OwnEntries(data) == [] ==> r == Ok([])
  {
    match Cards(OwnEntries(data))
    case Err(e) => Err(e)
    case Ok(cards) => Ok(SortNewestFirst(cards, timeOf))
  }

  /** Everything the `try` block of `fetchTemplates` computes before
      committing: the sorted list, or what it threw. */
  function LoadTemplates(f: Fetched, timeOf: Option<Json> -> int): (r: Result<seq<Json>, Exception>)
    ensures f.NetworkFailure? ==> r == Err(NetworkError)
    ensures f.Response? && !ResponseOk(f.status) ==> r == Err(HttpStatus(f.status))
    ensures f.Response? && ResponseOk(f.status) && f.body.Unparsable? ==> r == Err(SyntaxError)
    ensures f.Response? && ResponseOk(f.status) && f.body == Parsed(JNull) ==> r == Err(TypeError)
    ensures r.Ok? <==> FetchData(f).Ok? && Cards(OwnEntries(FetchData(f).value)).Ok?
    ensures r.Ok? ==> NewestFirst(r.value, timeOf)
    ensures r.Ok? ==> |r.value| == |OwnEntries(FetchData(f).value)|
    ensures r.Ok? ==> multiset(r.value) == multiset(Cards(OwnEntries(FetchData(f).value)).value)
  {
    match FetchData(f)
    case Err(e) => Err(e)
    case Ok(data) =>
      var r := TemplatesFrom(data, timeOf);
      assert r.Ok? ==> |r.value| == |multiset(r.value)| == |Cards(OwnEntries(data)).value|;
      r
  }

  // ---------------------------------------------------------------------------
  // Properties of the transform

  /** Every stored card is the card of one entry of the mapping, and there are
      as many cards as entries. */
  lemma EachCardFromAnEntry(data: Json, timeOf: Option<Json> -> int)
    requires TemplatesFrom(data, timeOf).Ok?
    ensures |TemplatesFrom(data, timeOf).value| == |OwnEntries(data)|
    ensures forall c :: c in TemplatesFrom(data, timeOf).value ==>
      exists i :: 0 <= i < |OwnEntries(data)| && Card(OwnEntries(data)[i].0, OwnEntries(data)[i].1) == Ok(c)
  {
    var entries := OwnEntries(data);
    var card := (e: (string, Json)) => Card(e.0, e.1);
    PermutedResults(entries, card, Cards(entries).value, TemplatesFrom(data, timeOf).value);
  }

  /** A rearrangement of the results of mapping `f` over `xs` holds only
      results of `f` on elements of `xs`, as many as there are elements. */
  lemma PermutedResults<A, B, E>(xs: seq<A>, f: A -> Result<B, E>, ys: seq<B>, zs: seq<B>)
    requires |ys| == |xs| && forall i :: 0 <= i < |xs| ==> f(xs[i]) == Ok(ys[i])
    requires multiset(zs) == multiset(ys)
    ensures |zs| == |xs|
    ensures forall z :: z in zs ==> exists i :: 0 <= i < |xs| && f(xs[i]) == Ok(z)
  {
    PermutationSameMembers(zs, ys);
    forall z | z in zs ensures exists i :: 0 <= i < |xs| && f(xs[i]) == Ok(z) {
      var i :| 0 <= i < |ys| && ys[i] == z;
    }
  }

  lemma PermutationSameMembers<T>(a: seq<T>, b: seq<T>)
    requires multiset(a) == multiset(b)
    ensures |a| == |b|
    ensures forall x :: x in a ==> x in b
  {
    assert |multiset(a)| == |a| && |multiset(b)| == |b|;
    forall x | x in a ensures x in b {
      assert x in multiset(a);
    }
  }

  /** The number of cards whose `slug` is `k`. */
  function SlugCount(cards: seq<Json>, k: string): nat {
    if cards == [] then 0
    else (if Get(cards[0], "slug") == Some(JStr(k)) then 1 else 0) + SlugCount(cards[1..], k)
  }

  /** The number of entries with key `k`. */
  function KeyCount(entries: seq<(string, Json)>, k: string): nat {
    if entries == [] then 0
    else (if entries[0].0 == k then 1 else 0) + KeyCount(entries[1..], k)
  }

  lemma {:induction false} SlugCountInsert(card: Json, cards: seq<Json>, rank: Json -> int, k: string)
    requires Descending(cards, rank)
    ensures SlugCount(InsertDescending(card, cards, rank), k) == SlugCount([card] + cards, k)
  {
    if cards == [] || rank(card) >= rank(cards[0]) {
    } else {
      var tail := cards[1..];
      assert Descending(tail, rank) by {
        forall i, j | 0 <= i < j < |tail| ensures rank(tail[i]) >= rank(tail[j]) {
          assert tail[i] == cards[i + 1] && tail[j] == cards[j + 1];
        }
      }
      SlugCountInsert(card, tail, rank, k);
      var rest := InsertDescending(card, tail, rank);
      assert ([cards[0]] + rest)[1..] == rest;
      assert ([card] + tail)[1..] == tail;
      assert ([card] + cards)[1..] == cards;
    }
  }

  lemma {:induction false} SlugCountSort(cards: seq<Json>, rank: Json -> int, k: string)
    ensures SlugCount(SortDescending(cards, rank), k) == SlugCount(cards, k)
  {
    if cards != [] {
      var rest := SortDescending(cards[1..], rank);
      SlugCountSort(cards[1..], rank, k);
      SlugCountInsert(cards[0], rest, rank, k);
      assert ([cards[0]] + rest)[1..] == rest;
    }
  }

  /** Cards that carry their entry's key as `slug`, position by position,
      count each slug as often as the entries count the key. */
  lemma {:induction false} SlugCountOfKeys(entries: seq<(string, Json)>, cards: seq<Json>, k: string)
    requires |cards| == |entries|
    requires forall i :: 0 <= i < |cards| ==> Get(cards[i], "slug") == Some(JStr(entries[i].0))
    ensures SlugCount(cards, k) == KeyCount(entries, k)
  {
    if entries != [] {
      var tail, rest := entries[1..], cards[1..];
      assert forall i :: 0 <= i < |rest| ==> rest[i] == cards[i + 1] && tail[i] == entries[i + 1];
      SlugCountOfKeys(tail, rest, k);
    }
  }

  lemma SlugCountCards(entries: seq<(string, Json)>, k: string)
    requires Cards(entries).Ok?
    ensures SlugCount(Cards(entries).value, k) == KeyCount(entries, k)
  {
    var cards := Cards(entries).value;
    forall i | 0 <= i < |cards| ensures Get(cards[i], "slug") == Some(JStr(entries[i].0)) {
      CardFields(entries[i].0, entries[i].1);
    }
    SlugCountOfKeys(entries, cards, k);
  }

  lemma {:induction false} KeyCountDistinct(entries: seq<(string, Json)>, k: string)
    requires DistinctKeys(entries)
    ensures KeyCount(entries, k) == if HasKey(entries, k) then 1 else 0
  {
    if entries != [] {
      var rest := entries[1..];
      assert DistinctKeys(rest) by {
        forall i, j | 0 <= i < j < |rest| ensures rest[i].0 != rest[j].0 {
          assert rest[i] == entries[i + 1] && rest[j] == entries[j + 1];
        }
      }
      KeyCountDistinct(rest, k);
      if entries[0].0 == k {
        assert !HasKey(rest, k) by {
          forall i | 0 <= i < |rest| ensures rest[i].0 != k {
            assert rest[i] == entries[i + 1];
          }
        }
      } else {
        assert HasKey(entries, k) == HasKey(rest, k) by {
          if HasKey(entries, k) {
            var i :| 0 <= i < |entries| && entries[i].0 == k;
            assert rest[i - 1] == entries[i];
          }
          if HasKey(rest, k) {
            var i :| 0 <= i < |rest| && rest[i].0 == k;
            assert entries[i + 1] == rest[i];
          }
        }
      }
    }
  }

  /** The stored list has exactly one card per key of the mapping (whose keys
      are distinct, as an object's are), and none for any other slug. */
  lemma OneCardPerKey(data: Json, timeOf: Option<Json> -> int, k: string)
    requires TemplatesFrom(data, timeOf).Ok?
    requires DistinctKeys(OwnEntries(data))
    ensures SlugCount(TemplatesFrom(data, timeOf).value, k) == if HasKey(OwnEntries(data), k) then 1 else 0
  {
    SlugCountSort(Cards(OwnEntries(data)).value, c => Stamp(c, timeOf), k);
    SlugCountCards(OwnEntries(data), k);
    KeyCountDistinct(OwnEntries(data), k);
  }

  /** A response without the wrapper shape, or whose first element has no
      truthy `data`, loads the empty list. */
  lemma NoWrapperNoTemplates(status: int, dataArray: Json, timeOf: Option<Json> -> int)
    requires ResponseOk(status)
    requires dataArray == JArr([]) ||
             (dataArray.JArr? && |dataArray.items| > 0 && !TruthyProp(dataArray.items[0], "data")) ||
             (dataArray.JObj? && !HasKey(dataArray.fields, "0"))
    ensures LoadTemplates(Response(status, Parsed(dataArray)), timeOf) == Ok([])
  {
    var f := Response(status, Parsed(dataArray));
    assert FetchJson(f) == Ok(dataArray);
    assert FetchData(f) == UnwrapData(dataArray) == Ok(JObj([]));
    assert OwnEntries(JObj([])) == [];
  }

  // ---------------------------------------------------------------------------
  // Page state

  /** The three state variables of the page. */
  datatype ListState = ListState(loading: bool, error: Option<string>, templates: seq<Json>)

  /** `useState([])`, `useState(true)`, `useState(null)`. */
  const InitialList := ListState(true, None, [])

  /** `setLoading(true); setError(null)` before the first await. */
  function ListAfterStart(s: ListState): (r: ListState)
    ensures r.loading && r.error == None && r.templates == s.templates
  {
    s.(loading := true, error := None)
  }

  /** The commits after the awaits, for a run that is still mounted: the
      sorted list on success, the error message and an empty list on any
      failure, and in every case `loading` resolved to false. */
  function ListAfterSettle(s: ListState, f: Fetched, timeOf: Option<Json> -> int): (r: ListState)
    ensures !r.loading
    ensures LoadTemplates(f, timeOf).Ok? ==> r.error == s.error && r.templates == LoadTemplates(f, timeOf).value
    ensures LoadTemplates(f, timeOf).Err? ==> r.error == Some(LoadError) && r.templates == []
    ensures f.NetworkFailure? || (f.Response? && !ResponseOk(f.status)) ==>
      r == ListState(false, Some(LoadError), [])
  {
    match LoadTemplates(f, timeOf)
    case Ok(sorted) => ListState(false, s.error, sorted)
    case Err(_) => ListState(false, Some(LoadError), [])
  }

  /** What the page shows. */
  datatype ListScreen = LoadingTemplates | LoadFailed(message: string) | Grid(cards: seq<Json>)

  /** `if (loading) ...; if (error) ...; return grid`. */
  function RenderList(s: ListState): (r: ListScreen)
    ensures r.LoadingTemplates? <==> s.loading
    ensures r.LoadFailed? <==> !s.loading && TruthyText(s.error)
    ensures r.LoadFailed? ==> r.message == s.error.value
    ensures r.Grid? ==> r.cards == s.templates
  {
    if s.loading then LoadingTemplates
    else if TruthyText(s.error) then LoadFailed(s.error.value)
    else Grid(s.templates)
  }

  /** One mounted load, from any state: the page ends on the sorted grid or on
      the error message, never on the loading screen. */
  lemma LoadEndsOnGridOrError(s: ListState, f: Fetched, timeOf: Option<Json> -> int)
    ensures RenderList(ListAfterSettle(ListAfterStart(s), f, timeOf)) ==
      match LoadTemplates(f, timeOf)
      case Ok(sorted) => Grid(sorted)
      case Err(_) => LoadFailed(LoadError)
  {
  }

  /** `navigate(`/templates/${slug}`)`. */
  function TemplateRoute(slug: string): (r: string)
    ensures |r| == |RoutePrefix| + |slug|
    ensures r[..|RoutePrefix|] == RoutePrefix && r[|RoutePrefix|..] == slug
  {
    RoutePrefix + slug
  }

  /** Different cards lead to different routes. */
  lemma RoutesDistinct(a: string, b: string)
    requires a != b
    ensures TemplateRoute(a) != TemplateRoute(b)
  {
    assert TemplateRoute(a)[|RoutePrefix|..] == a;
  }

  /** The page component's state variables. */
  class Page {
    var loading: bool
    var error: Option<string>
    var templates: seq<Json>

    function State(): ListState
      reads this
    {
      ListState(loading, error, templates)
    }

    /** The first render, before the effect runs. */
    constructor ()
      ensures State() == InitialList
    {
      loading, error, templates := true, None, [];
    }
  }

  /** One run of the effect (`useEffect(..., [])` runs once per mount), with
      the `isMounted` flag its closure owns. */
  class Effect {
    const page: Page
    var isMounted: bool

    /** `let isMounted = true`. */
    constructor (page: Page)
      ensures this.page == page && isMounted
    {
      this.page := page;
      isMounted := true;
    }

    /** `fetchTemplates()` up to the first await: `setLoading(true)` and
        `setError(null)`, unguarded since the run has just started. */
    method Start()
      modifies page
      ensures page.State() == ListAfterStart(old(page.State()))
    {
      page.loading := true;
      page.error := None;
    }

    /** The rest of `fetchTemplates` once the fetch has settled with `f`:
        every commit in `try`, `catch` and `finally` checks this run's
        `isMounted`. */
    method Settle(f: Fetched, timeOf: Option<Json> -> int)
      modifies page
      ensures page.State() == if isMounted then ListAfterSettle(old(page.State()), f, timeOf) else old(page.State())
    {
      var outcome := LoadTemplates(f, timeOf);
      if outcome.Ok? {
        if isMounted {
          page.templates := outcome.value;
        }
      } else {
        if isMounted {
          page.error := Some(LoadError);
          page.templates := [];
        }
      }
      if isMounted {
        page.loading := false;
      }
    }

    /** The effect's cleanup: `isMounted = false` for this run only. */
    method Cleanup()
      modifies this
      ensures !isMounted
    {
      isMounted := false;
    }
  }

  /** Unmounting before the fetch settles: the late result commits nothing. */
  method UnmountBeforeSettle(f: Fetched, timeOf: Option<Json> -> int) returns (page: Page)
    ensures page.State() == ListAfterStart(InitialList)
  {
    page := new Page();
    var run := new Effect(page);
    run.Start();
    run.Cleanup();
    run.Settle(f, timeOf);
  }

  /** The effect is cleaned up and run again (a remount) before the first
      run's fetch settles, and the first result arrives last: only the second
      run's outcome is committed. */
  method RemountDiscardsStaleResult(f1: Fetched, f2: Fetched, timeOf: Option<Json> -> int) returns (page: Page)
    ensures page.State() == ListAfterSettle(ListAfterStart(InitialList), f2, timeOf)
  {
    page := new Page();
    var first := new Effect(page);
    first.Start();
    first.Cleanup();
    var second := new Effect(page);
    second.Start();
    second.Settle(f2, timeOf);
    first.Settle(f1, timeOf);
  }
}
