/** The provider base class (`Essence\Provider`): a preparator chain run on
    the URL, the strategy hook `_embed` of the concrete provider, the
    back-fill of the `url` field, and a presenter chain run on the result. */
module Provider {
  import opened Essence
  import opened Media
  import opened Filters
  import MetaTags
  import PhpString

  /** The per-call options handed to the strategy. */
  type Options = map<string, string>

  /** The `_embed` hook of a concrete provider. `MetaTagsStrategy` is the
      meta-tag provider, whose HTTP client and DOM parser together are
      `fetch`; `Hook` stands for any other provider's `_embed`. */
  datatype Strategy =
    | MetaTagsStrategy(fetch: string -> Result<seq<MetaTags.Meta>>)
    | Hook(embed: (string, Options) -> Result<Media>)

  /** What the strategy yields for the URL it is given. The meta-tag
      strategy throws exactly when its fetch threw or matched no tag, and
      otherwise yields a well-formed, non-empty container. */
  function Extract(strategy: Strategy, url: string, options: Options): (r: Result<Media>)
    ensures strategy.MetaTagsStrategy? ==>
      (r.Failure? <==> strategy.fetch(url).Failure? || strategy.fetch(url).value == [])
    ensures strategy.MetaTagsStrategy? && strategy.fetch(url).Failure? ==>
      r == Failure(strategy.fetch(url).error)
    ensures strategy.MetaTagsStrategy? && r.Success? ==> r.value.Valid() && r.value.keys != []
  {
    match strategy
    case MetaTagsStrategy(fetch) => MetaTags.EmbedSpec(url, fetch(url))
    case Hook(embed) => embed(url, options)
  }

  /** The fixed `embed` pipeline: preparators on the URL, the strategy on
      the prepared URL, `setDefault('url', ...)` with that URL, then the
      presenters. The first exception ends the call: a result is returned
      only when the preparators and the strategy both succeeded, and
      without presenters it always carries a `url`. */
  function Pipeline(preparators: Filters<string>, strategy: Strategy, presenters: Filters<Media>,
                    url: string, options: Options): (r: Result<Media>)
    ensures preparators.Filter(url).Failure? ==> r == Failure(preparators.Filter(url).error)
    ensures r.Success? ==>
      && preparators.Filter(url).Success?
      && Extract(strategy, preparators.Filter(url).value, options).Success?
    ensures r.Success? && presenters.steps == [] ==> r.value.Has("url")
  {
    match preparators.Filter(url)
    case Failure(e) => Failure(e)
    case Success(prepared) =>
      match Extract(strategy, prepared, options)
      case Failure(e) => Failure(e)
      case Success(media) => presenters.Filter(media.SetDefault("url", prepared))
  }

  class Provider {
    const preparators: Filters<string>
    const presenters: Filters<Media>
    const strategy: Strategy

    /** `new Provider($preparators, $presenters)` for a provider whose
        `_embed` is `strategy`. */
    constructor (strategy: Strategy, preparators: seq<Step<string>>, presenters: seq<Step<Media>>)
      ensures this.strategy == strategy
      ensures this.preparators == Filters(preparators) && this.presenters == Filters(presenters)
    {
      this.strategy := strategy;
      this.preparators := Filters(preparators);
      this.presenters := Filters(presenters);
    }

    /** `new MetaTags($Http, $Dom, $preparators, $presenters)`. */
    constructor MetaTagsProvider(fetch: string -> Result<seq<MetaTags.Meta>>,
                         preparators: seq<Step<string>>, presenters: seq<Step<Media>>)
      ensures strategy == MetaTagsStrategy(fetch)
      ensures this.preparators == Filters(preparators) && this.presenters == Filters(presenters)
    {
      strategy := MetaTagsStrategy(fetch);
      this.preparators := Filters(preparators);
      this.presenters := Filters(presenters);
    }

    /** `embed($url, $options)`. */
    method Embed(url: string, options: Options) returns (r: Result<Media>)
      ensures r == Pipeline(preparators, strategy, presenters, url, options)
    {
      var prepared := preparators.Filter(url);
      if prepared.Failure? {
        return Failure(prepared.error);
      }
      var u := prepared.value;
      var extracted: Result<Media>;
      match strategy {
        case MetaTagsStrategy(fetch) =>
          extracted := MetaTags.Embed(u, fetch(u));
        case Hook(embed) =>
          extracted := embed(u, options);
      }
      if extracted.Failure? {
        return Failure(extracted.error);
      }
      var media := extracted.value;
      media := media.SetDefault("url", u);
      r := presenters.Filter(media);
    }
  }

  /** A preparator that throws ends the call with its exception; the
      strategy and the presenters play no part. */
  lemma PreparationFailureAborts(preparators: Filters<string>, strategy: Strategy,
                                 presenters: Filters<Media>, url: string, options: Options,
                                 e: Exception)
    requires preparators.Filter(url) == Failure(e)
    ensures Pipeline(preparators, strategy, presenters, url, options) == Failure(e)
  {
  }

  /** The strategy is consulted only on the prepared URL: two strategies
      that agree there give the same outcome. */
  lemma StrategySeesPreparedUrl(preparators: Filters<string>, s1: Strategy, s2: Strategy,
                                presenters: Filters<Media>, url: string, prepared: string,
                                options: Options)
    requires preparators.Filter(url) == Success(prepared)
    requires Extract(s1, prepared, options) == Extract(s2, prepared, options)
    ensures Pipeline(preparators, s1, presenters, url, options)
         == Pipeline(preparators, s2, presenters, url, options)
  {
  }

  /** An exception from `_embed` ends the call with that exception: no
      back-fill, no presenter and no media. */
  lemma StrategyFailureAborts(preparators: Filters<string>, strategy: Strategy,
                              presenters: Filters<Media>, url: string, prepared: string,
                              options: Options, e: Exception)
    requires preparators.Filter(url) == Success(prepared)
    requires Extract(strategy, prepared, options) == Failure(e)
    ensures Pipeline(preparators, strategy, presenters, url, options) == Failure(e)
  {
  }

  /** On success of `_embed`, the presenters receive the strategy's media
      with only `url` possibly added: a `url` the strategy set is kept,
      otherwise it is the prepared URL, every other field is unchanged,
      and `url` is appended after the strategy's fields. */
  lemma PresentersSeeBackfilledMedia(preparators: Filters<string>, strategy: Strategy,
                                     presenters: Filters<Media>, url: string, prepared: string,
                                     options: Options, media: Media)
    requires preparators.Filter(url) == Success(prepared)
    requires Extract(strategy, prepared, options) == Success(media)
    ensures exists handed: Media ::
      && Pipeline(preparators, strategy, presenters, url, options) == presenters.Filter(handed)
      && handed.Get("url") == (if media.Has("url") then media.Get("url") else Some(prepared))
      && (forall f :: f != "url" ==> handed.Get(f) == media.Get(f))
      && handed.keys == (if media.Has("url") then media.keys else media.keys + ["url"])
      && (media.Valid() ==> handed.Valid())
  {
    var handed := media.SetDefault("url", prepared);
    assert Pipeline(preparators, strategy, presenters, url, options) == presenters.Filter(handed);
  }

  /** With the default empty chains, `embed` is `_embed` on the URL plus the
      `url` back-fill. */
  lemma EmbedWithoutFilters(strategy: Strategy, url: string, options: Options)
    ensures Pipeline(Filters([]), strategy, Filters([]), url, options)
         == match Extract(strategy, url, options)
            case Failure(e) => Failure(e)
            case Success(media) => Success(media.SetDefault("url", url))
  {
  }

  /** The meta-tag provider end to end, without filters: every property of
      the matched tags holds the trimmed content of its first tag, nothing
      else is stored but `url`, and `url` is the requested URL unless a
      matched tag already supplied it. */
  lemma {:induction false} MetaTagsEmbedFields(fetch: string -> Result<seq<MetaTags.Meta>>,
                                               url: string, options: Options,
                                               metas: seq<MetaTags.Meta>)
    requires fetch(url) == Success(metas) && metas != []
    ensures var r := Pipeline(Filters([]), MetaTagsStrategy(fetch), Filters([]), url, options);
      && r.Success?
      && r.value.Valid()
      && (forall p :: r.value.Has(p) <==> p in MetaTags.Properties(metas) || p == "url")
      && (forall p :: p in MetaTags.Properties(metas) ==>
            r.value.Get(p) == Some(PhpString.Trim(metas[MetaTags.FirstIndex(metas, p)].content)))
      && ("url" !in MetaTags.Properties(metas) ==> r.value.Get("url") == Some(url))
  {
    var og := MetaTags.Fold(metas);
    MetaTags.FoldKeys(metas);
    forall p | p in MetaTags.Properties(metas)
      ensures og.Get(p) == Some(PhpString.Trim(metas[MetaTags.FirstIndex(metas, p)].content))
    {
      MetaTags.FoldValues(metas, p);
    }
    EmbedWithoutFilters(MetaTagsStrategy(fetch), url, options);
  }

  /** A page without a matching tag makes `embed` throw the "no data"
      exception naming the prepared URL. */
  lemma MetaTagsNoDataFails(preparators: Filters<string>, fetch: string -> Result<seq<MetaTags.Meta>>,
                            presenters: Filters<Media>, url: string, prepared: string,
                            options: Options)
    requires preparators.Filter(url) == Success(prepared)
    requires fetch(prepared) == Success([])
    ensures Pipeline(preparators, MetaTagsStrategy(fetch), presenters, url, options)
         == Failure(MetaTags.NoDataError(prepared))
  {
  }

  /** An exception from the HTTP client or the DOM parser reaches the
      caller of `embed` unchanged. */
  lemma MetaTagsFetchFailurePropagates(preparators: Filters<string>,
                                       fetch: string -> Result<seq<MetaTags.Meta>>,
                                       presenters: Filters<Media>, url: string, prepared: string,
                                       options: Options, e: Exception)
    requires preparators.Filter(url) == Success(prepared)
    requires fetch(prepared) == Failure(e)
    ensures Pipeline(preparators, MetaTagsStrategy(fetch), presenters, url, options) == Failure(e)
  {
  }

  /** Two `title` tags, contents `first` then `second`: the field holds the
      trimmed `first`, whatever `second` is. */
  lemma FirstTitleWins(fetch: string -> Result<seq<MetaTags.Meta>>, url: string, options: Options,
                       first: string, second: string)
    requires fetch(url) == Success([MetaTags.Meta("title", first), MetaTags.Meta("title", second)])
    ensures var r := Pipeline(Filters([]), MetaTagsStrategy(fetch), Filters([]), url, options);
      r.Success? && r.value.Get("title") == Some(PhpString.Trim(first))
  {
    var metas := [MetaTags.Meta("title", first), MetaTags.Meta("title", second)];
    var og := MetaTags.Fold(metas);
    assert og.Get("title") == Some(PhpString.Trim(first)) by {
      MetaTags.FoldFirstWins(metas, 0);
    }
    assert Extract(MetaTagsStrategy(fetch), url, options) == Success(og);
    EmbedWithoutFilters(MetaTagsStrategy(fetch), url, options);
  }

  /** An `og:title` tag with content " Hello ": the container holds
      `og:title` = "Hello", no `title`, and `url` = the requested URL. */
  lemma OpenGraphTitleTrimmed(fetch: string -> Result<seq<MetaTags.Meta>>, url: string,
                              options: Options)
    requires fetch(url) == Success([MetaTags.Meta("og:title", " Hello ")])
    ensures var r := Pipeline(Filters([]), MetaTagsStrategy(fetch), Filters([]), url, options);
      && r.Success?
      && r.value.Get("og:title") == Some("Hello")
      && r.value.Get("title") == None
      && r.value.Get("url") == Some(url)
  {
    var metas := [MetaTags.Meta("og:title", " Hello ")];
    assert metas[..0] == [];
    assert PhpString.Trim(" Hello ") == "Hello" by {
      assert " Hello "[1..] == "Hello ";
      assert PhpString.LeadingCount("Hello ") == 0;
      assert PhpString.LeadingCount(" Hello ") == 1;
      assert "Hello "[..5] == "Hello";
      assert PhpString.TrailingCount("Hello") == 0;
      assert PhpString.TrailingCount("Hello ") == 1;
    }
    EmbedWithoutFilters(MetaTagsStrategy(fetch), url, options);
  }

  /** "A" has no strippable end. */
  lemma TrimOfA()
    ensures PhpString.Trim("A") == "A"
  {
    assert !PhpString.IsTrimmable('A');
    PhpString.TrimOfTrimmed("A");
  }

  /** Two `title` tags with contents "A" and "B": the field holds "A". */
  lemma TitleAWins(fetch: string -> Result<seq<MetaTags.Meta>>, url: string, options: Options)
    requires fetch(url) == Success([MetaTags.Meta("title", "A"), MetaTags.Meta("title", "B")])
    ensures var r := Pipeline(Filters([]), MetaTagsStrategy(fetch), Filters([]), url, options);
      r.Success? && r.value.Get("title") == Some("A")
  {
    FirstTitleWins(fetch, url, options, "A", "B");
    TrimOfA();
  }
}
