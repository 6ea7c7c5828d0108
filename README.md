# Essence provider layer in Dafny

A model of the provider layer of Essence, a PHP library that extracts embed
information (title, thumbnail, URL, ...) from web pages. It covers two pieces:

- the fixed `Provider::embed` pipeline: the preparator chain rewrites the URL,
  the provider's `_embed` strategy builds a media container from the prepared
  URL, `setDefault('url', $url)` back-fills the `url` field only when the
  strategy left it absent, and the presenter chain produces the returned media;
- the meta-tag provider's `_embed`: given the `<meta>` tags of the page whose
  `property` matches the configured scheme, it throws when there is none and
  otherwise folds them into a container where the first tag of each property
  wins and its `content` is trimmed with PHP's `trim`.

Modules, one per concept:

- `Essence` (`essence.dfy`): the `Exception` the providers throw and a
  `Result` type that stands for "returns a value or throws".
- `PhpString` (`php_string.dfy`): PHP's `trim` with its default character list
  (space, tab, line feed, carriage return, NUL, vertical tab).
- `Media` (`media.dfy`): the metadata container, an ordered map: the key list in
  insertion order (PHP arrays keep it) and the values, with `Get`, `Set` and
  `SetDefault`.
- `Filters` (`filters.dfy`): a filter chain, a sequence of steps run in the
  order given to the constructor, each on the previous step's output; a step
  that throws ends the chain.
- `MetaTags` (`meta_tags.dfy`): the first-occurrence-wins fold as a recursive
  function `Fold`, and `_embed` as the method `Embed` whose `foreach` loop is
  proved to compute `Fold`.
- `Provider` (`provider.dfy`): the class `Provider` with its two chains and its
  strategy, the method `Embed` proved equal to the function `Pipeline`, and
  the lemmas about the pipeline, the meta-tag provider included.

The abstract `_embed` hook is a `Strategy`: either the meta-tag provider, whose
HTTP client and DOM parser are one input function `fetch` (URL in, the matched
`(property, content)` pairs or the exception out), or any other provider's
`_embed` as an opaque function of the URL and the options.

Two points where the model follows the code rather than the prose around it:

- The doc comment of `embed` promises `Media|null`, "null if nothing could be
  fetched" (lib/Essence/Provider.php:79-80). The code never returns null: it
  returns the presenters' output, and every failure is an exception. `Embed`
  returns `Success(media)` or `Failure(exception)`, never an empty value.
- The URL given to `setDefault` is the variable `$url` after the preparators
  have rewritten it (lib/Essence/Provider.php:85-88), the same URL `_embed`
  received, not the URL the caller passed. This assumes that `filter` rewrites
  its argument by reference, as its unused return value at
  lib/Essence/Provider.php:85 implies; the code of `Filters` is not shown. `Pipeline` back-fills with the
  prepared URL, and `PresentersSeeBackfilledMedia` states it.

## Model

| member | source | states |
|---|---|---|
| `PhpString.Trim` | lib/Essence/Provider/MetaTags.php:96 | the result is the input with its longest strippable prefix and suffix removed (both removed parts consist of strippable characters only), and neither end of the result is strippable |
| `PhpString.TrimIdempotent` | lib/Essence/Provider/MetaTags.php:96 | trimming a trimmed value again leaves it unchanged |
| `PhpString.TrimOfTrimmed` | lib/Essence/Provider/MetaTags.php:96 | content with no strippable end is stored exactly as it is |
| `Media.Empty` | lib/Essence/Provider/MetaTags.php:92 | the fresh `$og` array has no field and an empty key order |
| `Media.Media.Set` | lib/Essence/Provider/MetaTags.php:96 | after the write the field holds the new value, every other field is unchanged, a new field is appended to the key order and an existing one keeps its place; keys stay distinct |
| `Media.Media.SetDefault` | lib/Essence/Provider.php:88 | a field already present keeps its value and the order is unchanged; an absent one gets the given value and is appended; no other field changes |
| `Media.SetDefaultIdempotent` | lib/Essence/Provider.php:88 | a second `setDefault` on the same field, with any value, changes nothing |
| `Filters.Run` | lib/Essence/Provider.php:85 | runs the steps front to back, each on the previous output, stopping at the first exception: an empty chain returns its input, an exception is always one some step threw, and a success of a non-empty chain is an output of its last step |
| `Filters.Filters.Filter` | lib/Essence/Provider.php:90 | `filter` on a chain equals the reference order: the last step applied to what all the steps before it produced |
| `Filters.EmptyChainIsIdentity` | lib/Essence/Provider.php:64-70 | a chain built from the default empty array returns its input unchanged |
| `Filters.SingleStepChain` | lib/Essence/Provider.php:68-69 | a chain of one step returns exactly what that step returns, exception included |
| `Filters.RunAppend` | lib/Essence/Provider.php:85 | running a chain split in two is running the second part on the first part's output, and not running it at all when the first part threw |
| `Filters.RunIsInOrder` | lib/Essence/Provider.php:68-69 | the chain's result equals the last step applied to the result of all the steps before it: steps run in array order, each on the previous step's output |
| `Filters.FailingStepStopsChain` | lib/Essence/Provider.php:90 | a step that throws ends the chain with its exception, whatever steps follow it |
| `MetaTags.NoDataError` | lib/Essence/Provider/MetaTags.php:87-89 | the "no data" exception's message contains the URL, right after its fixed prefix |
| `MetaTags.Fold` | lib/Essence/Provider/MetaTags.php:92-98 | the folded container has distinct keys matching its fields, every value has no strippable end, and a non-empty tag list gives a non-empty container |
| `MetaTags.FoldKeys` | lib/Essence/Provider/MetaTags.php:92-98 | the container's fields are exactly the `property` values of the tags: none lost, none invented |
| `MetaTags.FoldFirstWins` | lib/Essence/Provider/MetaTags.php:94-98 | the field named by the first tag with a given property holds that tag's trimmed content |
| `MetaTags.FoldValues` | lib/Essence/Provider/MetaTags.php:94-98 | every field holds the trimmed content of the first tag carrying that property |
| `MetaTags.FoldIgnoresRepeat` | lib/Essence/Provider/MetaTags.php:95 | a later tag whose property is already stored leaves the container unchanged: no overwrite |
| `MetaTags.FoldKeyOrder` | lib/Essence/Provider/MetaTags.php:92-98 | every key is a tag property, and keys appear in the order of their property's first occurrence among the tags |
| `MetaTags.EmbedSpec` | lib/Essence/Provider/MetaTags.php:77-101 | `_embed` throws exactly when the fetch threw (same exception) or no tag matched (the "no data" exception naming the URL); otherwise its container is well formed and non-empty |
| `MetaTags.Embed` | lib/Essence/Provider/MetaTags.php:77-101 | the early exits and the guarded `foreach` insert compute `EmbedSpec`: the loop keeps the container equal to the fold of the tags seen so far |
| `Provider.Extract` | lib/Essence/Provider.php:87 | the `_embed` dispatch: the meta-tag strategy throws exactly when its fetch threw (the same exception) or matched no tag, and otherwise yields a well-formed non-empty container |
| `Provider.Pipeline` | lib/Essence/Provider.php:83-91 | the reference `embed`: a preparator exception is the call's exception; a result is returned only when the preparators and the strategy both succeeded; with no presenters the result always has a `url` field |
| `Provider.Provider.constructor` | lib/Essence/Provider.php:64-70 | the preparator and presenter chains hold the given arrays in their given order; the strategy is the given `_embed` |
| `Provider.Provider.MetaTagsProvider` | lib/Essence/Provider/MetaTags.php:60-70 | a meta-tag provider: its strategy is the meta-tag `_embed` over the given fetch, and the chains are the given arrays |
| `Provider.Provider.Embed` | lib/Essence/Provider.php:83-91 | `embed` yields `Pipeline`: preparators on the URL, the strategy on the prepared URL, `url` back-filled with it, presenters on the result; the first exception ends the call |
| `Provider.PreparationFailureAborts` | lib/Essence/Provider.php:85 | a preparator that throws makes `embed` throw that exception |
| `Provider.StrategySeesPreparedUrl` | lib/Essence/Provider.php:85-87 | the strategy is consulted only on the prepared URL: two strategies that agree there give the same `embed` outcome |
| `Provider.StrategyFailureAborts` | lib/Essence/Provider.php:87-90 | when `_embed` throws, `embed` throws the same exception, whatever the presenters are: no back-fill, no presenter, no media |
| `Provider.PresentersSeeBackfilledMedia` | lib/Essence/Provider.php:87-90 | the result is the presenters applied to the strategy's media with only `url` possibly added: a `url` the strategy set is kept, otherwise it is the prepared URL appended last; every other field is unchanged |
| `Provider.EmbedWithoutFilters` | lib/Essence/Provider.php:83-91 | with the default empty chains, `embed` is `_embed` on the caller's URL plus the `url` back-fill |
| `Provider.MetaTagsEmbedFields` | lib/Essence/Provider/MetaTags.php:92-100 | end to end without filters, a page with matching tags succeeds; its fields are the tag properties plus `url`; each property holds the first tag's trimmed content; `url` is the requested URL unless a tag supplied it |
| `Provider.MetaTagsNoDataFails` | lib/Essence/Provider/MetaTags.php:86-90 | a page without a matching tag makes `embed` throw the "no data" exception naming the prepared URL |
| `Provider.MetaTagsFetchFailurePropagates` | lib/Essence/Provider/MetaTags.php:78 | an exception from the HTTP client or DOM parser reaches the caller of `embed` unchanged |
| `Provider.FirstTitleWins` | lib/Essence/Provider/MetaTags.php:95-96 | two `title` tags: the field holds the first one's trimmed content, whatever the second says |
| `Provider.TitleAWins` | lib/Essence/Provider/MetaTags.php:95-96 | two `title` tags with contents "A" then "B": the field holds "A" |
| `Provider.OpenGraphTitleTrimmed` | lib/Essence/Provider/MetaTags.php:96 | an `og:title` tag with content " Hello " yields `og:title` = "Hello", no `title`, and `url` = the requested URL |

## Left out

- The HTTP request (lib/Essence/Provider/MetaTags.php:78) and the DOM extraction (lib/Essence/Provider/MetaTags.php:79-84) are network I/O and a foreign parser. Together they are the input function `fetch`, which returns the matched tags in document order or the exception thrown.
- The `scheme` option and its default pattern `#.+#` (lib/Essence/Provider/MetaTags.php:46-48), and the PCRE match of `property` against it. The match happens inside the DOM parser, so `fetch` returns tags that already passed it.
- The `Configurable` trait and its property lookup (lib/Essence/Provider.php:23) are not part of this model.
- The meta-tag strategy ignores the per-call options, as the code does. Any other provider's `_embed` receives them as a `map<string, string>`, a simplification of a PHP array.
- The code of `Filters` and `Media` is not shown; the model represents them abstractly. A chain is a sequence of steps, and each step returns the new carrier instead of changing it by reference. `Media` is a value, so aliasing is not captured: a step that kept a reference to the container and changed it later would not be seen. "Absent" for `setDefault` means the key is not set.
- Media values are strings only; nested values a presenter might store are not modelled.
- Every exception is one `Exception` type with a message. The exception hierarchy is not modelled.
- PHP strings are byte strings; the model uses `seq<char>`, and `trim` strips the same six characters.
- Providers other than the meta-tag one are opaque `Hook` functions.
