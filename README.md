# Template content pipeline and contact form, modelled in Dafny

The site is a marketing website for an automation-consulting business. Its
template gallery loads `/templatesPost.json` and shows the result in two
places:

- **The list page** (`src/pages/Templates.tsx`) unwraps the fetched document
  as `dataArray[0]?.data || {}` and turns the slug-to-fields mapping into
  cards. Each card takes its key as `slug`, and gets an excerpt unless it
  already has a truthy `description`. The cards are sorted newest first. The
  page keeps `loading`, `error` and `templates` state. Each run of its effect
  has its own `isMounted` flag and commits only while that flag is set. The
  page navigates to `/templates/<slug>` when
  a card is clicked.
- **The detail page** (`src/pages/TemplatePost.tsx`) looks up the route's
  slug in the same mapping. It distinguishes no slug, found, not found and
  load failure. It renders the loading screen, a message with a way back to
  `/templates`, or the article. It opens the template's link only when one
  is present. Each run of its effect has its own liveness flag, so a result
  that arrives after the slug has changed commits nothing.

The contact form (`src/components/ContactCTA.tsx`) holds a four-field
record. A change event replaces exactly the field named by the event's
target. Submitting shows a success toast and resets the record.

Files:

- `wrappers.dfy`: `Option` and `Result`.
- `json_value.dfy`: JSON values and the JavaScript operations applied to
  them: truthiness, own-property access, `Object.entries`, and property
  definition in an object literal.
- `content_source.dfy`: the fetch outcome, the `response.ok` check and the
  unwrapping. Both pages share these.
- `tag_strip.dfy`: the regular expression `/<\/?[^>]+(>|$)/g` written as a
  recursive string function, with its properties.
- `templates.dfy`, `template_post.dfy`, `contact_cta.dfy`: one module per
  source file. Each has pure functions for the transforms and the state
  transitions, classes for the component state, and methods whose contracts
  tie each new state to those functions.

The fetch is an input to the model: a network failure, or a response with
its status and a body that parsed as JSON or did not. Date parsing is a
function `timeOf` from an entry's `date` property to an integer timestamp.

Three behaviours of the code are worth stating outright:

- The loader reads only `dataArray[0]?.data`. A plain slug mapping that is
  not wrapped in an array, unless it happens to have a key `"0"`, loads as
  empty (`ContentSource.UnwrappedBodyIsEmpty`).
- The excerpt is truncated to 150 characters first and stripped of tags
  afterwards, so a tag cut off at the boundary is removed to the end of the
  prefix (`Templates.Excerpt`).
- Submitting the contact form sends nothing anywhere. It logs the record,
  shows a toast and resets (`ContactCTA.ContactForm.HandleSubmit`).

## Model

| member | source | states |
|---|---|---|
| `JsonValue.Put` | src/pages/Templates.tsx:44-48 | Defining a property after a spread: the key then reads the new value, every other key reads what it did before, and distinct keys stay distinct |
| `ContentSource.FetchJson` | src/pages/Templates.tsx:32-38 | The body is available exactly when the response status is 200-299 and the body parsed; otherwise the failure is a network error, the status error or a syntax error |
| `ContentSource.FirstData` | src/pages/Templates.tsx:41 | `dataArray[0]?.data`: for a non-empty array whose first element is not `null`, that element's `data` property. An empty array, a `null` first element, a plain mapping without key "0", or a boolean or number body give no value |
| `ContentSource.UnwrapData` | src/pages/Templates.tsx:41 | `dataArray[0]?.data \|\| {}` throws only on a `null` body and always yields a truthy value. An empty array, a first element without truthy `data`, a plain mapping without key "0", or a boolean or number body all give the empty mapping |
| `ContentSource.FetchData` | src/pages/TemplatePost.tsx:40-48 | The mapping is available exactly when the body is available and is not `null`; it is then the unwrapped body; any earlier failure is passed on |
| `ContentSource.UnwrappedBodyIsEmpty` | src/pages/TemplatePost.tsx:48 | An ok response whose body is an empty array or a plain mapping without key "0" yields the empty mapping |
| `TagStrip.StripTags` | src/pages/Templates.tsx:47 | Stripping never lengthens the string |
| `TagStrip.StripTagsIsSubsequence` | src/pages/Templates.tsx:47 | The stripped string is a subsequence of the input: stripping only deletes |
| `TagStrip.StripTagsIsTagFree` | src/pages/Templates.tsx:47 | No match of the pattern is left: every surviving `<` is last or directly followed by `>` |
| `TagStrip.TagFreeUnchanged` | src/pages/Templates.tsx:47 | A string that contains no match is returned unchanged |
| `TagStrip.NoOpenerUnchanged` | src/pages/Templates.tsx:47 | A string without `<` is returned unchanged |
| `TagStrip.StripTagsIdempotent` | src/pages/Templates.tsx:47 | Stripping twice equals stripping once |
| `TagStrip.StripsMarkup` | src/pages/Templates.tsx:47 | `<p>Hi</p>` becomes `Hi` |
| `TagStrip.LessThanSwallowsRest` | src/pages/Templates.tsx:47 | `a < b` becomes `a `: an unclosed `<` runs the match to the end of the string |
| `TagStrip.EmptyPairKept` | src/pages/Templates.tsx:47 | `x<>y` is kept as it is |
| `Templates.Prefix` | src/pages/Templates.tsx:47 | `substring(0, n)`: the first `n` characters, or the whole string when it is shorter |
| `Templates.Excerpt` | src/pages/Templates.tsx:47 | The excerpt ends in `...` and is at most 153 characters. Before the ellipsis it is a tag-free subsequence of the first 150 characters of the content. Without `<` it is exactly those characters plus `...` |
| `Templates.Description` | src/pages/Templates.tsx:47 | The description can only fail with a `TypeError`, and when it succeeds it is truthy: a kept description is truthy and a derived one ends in `...` |
| `Templates.DescriptionCases` | src/pages/Templates.tsx:47 | A truthy `description` is kept verbatim. Otherwise a string content gives its excerpt, and a missing or `null` content gives `undefined...` without throwing. A `null` template, or a content of any other type, throws. A derived description is at most 153 characters |
| `Templates.Card` | src/pages/Templates.tsx:44-48 | A card is built exactly when its description can be computed |
| `Templates.CardFields` | src/pages/Templates.tsx:44-47 | A card is an object: its `slug` is the entry's key, overriding any `slug` of the template; its `description` is the derived or kept one; every other property equals the template's |
| `Templates.CardFails` | src/pages/Templates.tsx:47 | A card that cannot be built fails with a `TypeError` |
| `Templates.MapOrThrow` | src/pages/Templates.tsx:44-48 | A mapping whose callback may throw succeeds exactly when the callback succeeds on every element. It then yields one result per element, in order |
| `Templates.SlugCountCards` | src/pages/Templates.tsx:44-46 | The mapped cards carry each slug exactly as often as the mapping carries it as a key |
| `Templates.Cards` | src/pages/Templates.tsx:44-48 | The map succeeds exactly when every entry's card does. It then yields one card per entry, in entry order, each the card of that entry |
| `Templates.SortNewestFirst` | src/pages/Templates.tsx:51-55 | The sorted list is a permutation of its input and non-increasing in timestamp |
| `Templates.TemplatesFrom` | src/pages/Templates.tsx:41-55 | The list is produced exactly when every card can be built. It is then newest first and a permutation of the mapped cards; an empty mapping gives the empty list |
| `Templates.LoadTemplates` | src/pages/Templates.tsx:32-55 | A network failure, a status outside 200-299, an unparsable body and a `null` body each give their own error. A list is produced exactly when the unwrapped mapping exists and every card can be built. It is then newest first, a permutation of the mapped cards and as long as the mapping has entries |
| `Templates.EachCardFromAnEntry` | src/pages/Templates.tsx:44-55 | The stored list has as many cards as the mapping has entries, and each card is the card of some entry |
| `Templates.OneCardPerKey` | src/pages/Templates.tsx:44-46 | For a mapping with distinct keys, each key is the `slug` of exactly one stored card, and no other slug occurs |
| `Templates.NoWrapperNoTemplates` | src/pages/Templates.tsx:41 | An ok response whose array is empty, whose first element has no truthy `data`, or whose body is a plain mapping without key "0", loads the empty list |
| `Templates.ListAfterStart` | src/pages/Templates.tsx:29-30 | Starting a load sets `loading` and clears `error`, keeping the list |
| `Templates.ListAfterSettle` | src/pages/Templates.tsx:57-69 | A mounted settle always clears `loading`. On success it stores the sorted list and leaves `error` alone. On any failure it sets `Failed to load templates` and the empty list, and a network failure or non-ok status always ends there |
| `Templates.RenderList` | src/pages/Templates.tsx:84-111 | The loading screen shows exactly while `loading`. Otherwise a truthy error shows its message; otherwise the grid shows the stored list |
| `Templates.LoadEndsOnGridOrError` | src/pages/Templates.tsx:57-109 | After one mounted load from any state the page shows the sorted grid or the load error, never the loading screen |
| `Templates.TemplateRoute` | src/pages/Templates.tsx:80-82 | A card click navigates to `/templates/` followed by exactly the slug |
| `Templates.RoutesDistinct` | src/pages/Templates.tsx:80-82 | Different slugs give different routes |
| `Templates.Page.constructor` | src/pages/Templates.tsx:20-22 | The initial state is loading, no error, no templates |
| `Templates.Effect.constructor` | src/pages/Templates.tsx:25 | A new effect run starts with its own `isMounted` set |
| `Templates.Effect.Start` | src/pages/Templates.tsx:27-30 | Starting the load commits `ListAfterStart` of the page state |
| `Templates.Effect.Settle` | src/pages/Templates.tsx:57-70 | While this run is mounted the page state becomes `ListAfterSettle` of the old state; after this run's cleanup nothing changes |
| `Templates.Effect.Cleanup` | src/pages/Templates.tsx:75-77 | Cleanup clears this run's flag and no other |
| `Templates.UnmountBeforeSettle` | src/pages/Templates.tsx:57-77 | A result arriving after unmount leaves the state as the start of the load left it |
| `Templates.RemountDiscardsStaleResult` | src/pages/Templates.tsx:24-78 | When the effect is cleaned up and run again before the first fetch settles, and the first result arrives last, the page holds the second run's outcome only |
| `TemplatePost.LookupTemplate` | src/pages/TemplatePost.tsx:40-51 | The lookup fails exactly when fetching or unwrapping fails. It finds a template exactly when `data[slug]` is truthy, and the template found is that value |
| `TemplatePost.NoWrapperNothingFound` | src/pages/TemplatePost.tsx:48-51 | Without the wrapper shape every slug is not found |
| `TemplatePost.NullBodyFails` | src/pages/TemplatePost.tsx:45-48 | A `null` JSON body throws while unwrapping and counts as a load failure |
| `TemplatePost.DetailAfterStart` | src/pages/TemplatePost.tsx:30-38 | With no or an empty slug: no template, not loading, error untouched. With a slug: loading, no error, template untouched |
| `TemplatePost.DetailAfterSettle` | src/pages/TemplatePost.tsx:50-73 | A mounted settle always clears `loading`. There is a template exactly when it was found, and then `error` is left alone. Not found sets `Template not found`; a fetch or unwrap failure sets `Failed to load template` |
| `TemplatePost.RenderDetail` | src/pages/TemplatePost.tsx:142-165 | Loading comes first. Then a truthy error or a missing template shows `error \|\| 'Template Not Found'` with the way back to `/templates`. Otherwise the article shows the template |
| `TemplatePost.LoadEndsOnArticleOrMessage` | src/pages/TemplatePost.tsx:37-74 | One mounted load for a slug shows the article if found, `Template not found` if missing, `Failed to load template` on failure |
| `TemplatePost.NoSlugShowsNotFound` | src/pages/TemplatePost.tsx:30-34 | Without a slug the first render settles on the `Template Not Found` heading |
| `TemplatePost.ViewTemplateLink` | src/pages/TemplatePost.tsx:131-140 | A link is opened exactly when the template exists and its `link` is truthy, and it is that link |
| `TemplatePost.Page.constructor` | src/pages/TemplatePost.tsx:22-24 | The initial state is no template, loading, no error |
| `TemplatePost.Effect.constructor` | src/pages/TemplatePost.tsx:27 | A new effect run starts mounted |
| `TemplatePost.Effect.Start` | src/pages/TemplatePost.tsx:29-38 | The run fetches exactly when the slug is truthy, and the page state becomes `DetailAfterStart` |
| `TemplatePost.Effect.Settle` | src/pages/TemplatePost.tsx:40-74 | While this run is mounted the page state becomes `DetailAfterSettle`; after its cleanup nothing changes |
| `TemplatePost.Effect.Cleanup` | src/pages/TemplatePost.tsx:79-81 | Cleanup clears this run's flag |
| `TemplatePost.SlugChangeDiscardsStaleResult` | src/pages/TemplatePost.tsx:26-82 | If the slug changes from `a` to `b` and `a`'s result arrives last, the page holds `b`'s outcome only |
| `ContactCTA.WithField` | src/components/ContactCTA.tsx:31-35 | The named key holds the new value and every other key keeps its value |
| `ContactCTA.EmptyFormFields` | src/components/ContactCTA.tsx:11-16 | The empty record holds `""` in `name`, `email`, `company` and `message` and nothing else |
| `ContactCTA.FormFieldChangeKeepsShape` | src/components/ContactCTA.tsx:32-35 | A change to one of the four fields adds no key |
| `ContactCTA.ContactForm.constructor` | src/components/ContactCTA.tsx:11-16 | The form starts as the empty record |
| `ContactCTA.ContactForm.HandleInputChange` | src/components/ContactCTA.tsx:31-36 | The record becomes the old one with the target's field replaced by the target's value |
| `ContactCTA.ContactForm.HandleSubmit` | src/components/ContactCTA.tsx:19-29 | Submit returns the record as it was, always shows the success toast and resets to the empty record; there is no failure path |
| `ContactCTA.SubmitTwice` | src/components/ContactCTA.tsx:28 | Submitting twice leaves the empty record, as submitting once does |

## Left out

- The network and `response.json()`: a fetch outcome is an input (`Fetched`), and the status text in the thrown error is kept only as data.
- Date parsing with `new Date(...).getTime()`: `timeOf` abstracts it to integer timestamps, so `NaN` comparisons are not modelled.
- SortNewestFirst: does not state the order among cards with equal timestamps. `Array.prototype.sort` is stable, so ties keep `Object.entries` order in the source, and the insertion sort keeps them in the same order; no lemma states it.
- `substring` works on UTF-16 code units; the model treats strings as sequences of characters.
- JSON numbers are integers in the model; fractional values are not represented. Truthiness of a number is "not zero".
- Property access sees own enumerable properties only. Two kinds of property are not modelled: inherited ones such as `constructor` or `__proto__` on any object, and the own but non-enumerable `length` of arrays and strings. For instance `data["constructor"]` would be truthy in the browser.
- A JSON object with a repeated key: `JSON.parse` keeps the last value. The model represents objects with distinct keys (`JsonValue.DistinctKeys`), and OneCardPerKey assumes them.
- React scheduling, batching of state updates and async interleaving: each `isMounted` check is a sequential flag test before a commit.
- Browser effects: `console.log`/`console.error`, `trackEvent` analytics calls (src/pages/TemplatePost.tsx:53-61, 133-137), `window.open`, the toast display, `navigate` itself (only the route string is modelled), `dangerouslySetInnerHTML`, the injected style element (src/pages/TemplatePost.tsx:119-129) and the image fallback handler (src/pages/Templates.tsx:143-146).
- Markup of all three components, route matching in src/App.tsx, the blog pages that hold static content, and the header, hero, footer and other presentational components.
