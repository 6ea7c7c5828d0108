/** The meta-tag provider (`Essence\Provider\MetaTags`): its `_embed`
    strategy turns the `<meta>` tags of a page into a metadata container.

    Fetching the page and picking the tags whose `property` matches the
    configured scheme are done by the HTTP client and the DOM parser; here
    their combined outcome is an input, `fetched`: either the exception
    they threw, or the matched tags in document order. */
module MetaTags {
  import opened Essence
  import opened PhpString
  import opened Media

  /** One matched `<meta>` tag: its `property` and `content` attributes. */
  datatype Meta = Meta(property: string, content: string)

  const MessagePrefix: string := "Unable to extract MetaTags data from '"
  const MessageSuffix: string := "'."

  /** The exception thrown when the page has no matching tag; its message
      names the URL. */
  function NoDataError(url: string): (e: Exception)
    ensures |MessagePrefix| + |url| <= |e.message|
    ensures e.message[|MessagePrefix|..|MessagePrefix| + |url|] == url
  {
    Exception(MessagePrefix + url + MessageSuffix)
  }

  /** The `property` values that occur in `metas`. */
  ghost function Properties(metas: seq<Meta>): set<string> {
    set i | 0 <= i < |metas| :: metas[i].property
  }

  /** The fold of the tags into the container, one tag at a time in
      document order: a tag's trimmed `content` is stored under its
      `property` unless that property is already stored. */
  function Fold(metas: seq<Meta>): (og: Media)
    ensures og.Valid()
    ensures forall p :: p in og.fields ==> IsTrimmed(og.fields[p])
    ensures metas != [] ==> og.keys != []
    decreases |metas|
  {
    if metas == [] then Empty()
    else
      var og := Fold(metas[..|metas| - 1]);
      var meta := metas[|metas| - 1];
      if og.Has(meta.property) then og else og.Set(meta.property, Trim(meta.content))
  }

  /** The position of the first tag whose property is `p`. */
  ghost function FirstIndex(metas: seq<Meta>, p: string): (i: nat)
    requires p in Properties(metas)
    ensures i < |metas| && metas[i].property == p
    ensures forall j :: 0 <= j < i ==> metas[j].property != p
    decreases |metas|
  {
    var init := metas[..|metas| - 1];
    if p in Properties(init) then
      var i := FirstIndex(init, p);
      assert metas[i] == init[i];
      i
    else
      assert forall j :: 0 <= j < |init| ==> init[j].property in Properties(init);
      |metas| - 1
  }

  /** What `_embed` yields: the exception of the fetch, the "no data"
      exception when no tag matched, or the fold of the tags. */
  function EmbedSpec(url: string, fetched: Result<seq<Meta>>): (r: Result<Media>)
    ensures r.Failure? <==> fetched.Failure? || fetched.value == []
    ensures fetched.Failure? ==> r.error == fetched.error
    ensures fetched.Success? && fetched.value == [] ==> r.error == NoDataError(url)
    ensures r.Success? ==> r.value.Valid() && r.value.keys != []
  {
    match fetched
    case Failure(e) => Failure(e)
    case Success(metas) =>
      if metas == [] then Failure(NoDataError(url)) else Success(Fold(metas))
  }

  /** `_embed($url, $options)`: stops with the fetch's exception, throws when
      no tag matched, and otherwise builds the container tag by tag, storing
      each property only the first time it is seen. */
  method Embed(url: string, fetched: Result<seq<Meta>>) returns (r: Result<Media>)
    ensures r == EmbedSpec(url, fetched)
  {
    if fetched.Failure? {
      return Failure(fetched.error);
    }
    var metas := fetched.value;
    if |metas| == 0 {
      return Failure(NoDataError(url));
    }
    var og := Empty();
    for i := 0 to |metas|
      invariant og == Fold(metas[..i])
    {
      var meta := metas[i];
      FoldStep(metas, i);
      if !og.Has(meta.property) {
        og := og.Set(meta.property, Trim(meta.content));
      }
    }
    assert metas[..|metas|] == metas;
    return Success(og);
  }

  /** One more tag extends the fold of the tags before it. */
  lemma FoldStep(metas: seq<Meta>, i: nat)
    requires i < |metas|
    ensures var og := Fold(metas[..i]);
      Fold(metas[..i + 1]) ==
        if og.Has(metas[i].property) then og else og.Set(metas[i].property, Trim(metas[i].content))
  {
    assert metas[..i + 1][..i] == metas[..i];
  }

  /** The stored fields are exactly the properties of the tags: none is
      lost and none is invented. */
  lemma {:induction false} FoldKeys(metas: seq<Meta>)
    ensures forall p :: Fold(metas).Has(p) <==> p in Properties(metas)
    decreases |metas|
  {
    if metas != [] {
      var init, last := metas[..|metas| - 1], metas[|metas| - 1];
      FoldKeys(init);
      assert metas == init + [last];
      assert Properties(metas) == Properties(init) + {last.property} by {
        forall p | p in Properties(metas) ensures p in Properties(init) + {last.property} {
          var i :| 0 <= i < |metas| && metas[i].property == p;
          if i < |init| { assert init[i] == metas[i]; }
        }
        forall p | p in Properties(init) ensures p in Properties(metas) {
          var i :| 0 <= i < |init| && init[i].property == p;
          assert metas[i] == init[i];
        }
      }
    }
  }

  /** First occurrence wins: the value stored under the property of the
      first tag carrying it is that tag's trimmed content. */
  lemma {:induction false} FoldFirstWins(metas: seq<Meta>, i: nat)
    requires i < |metas|
    requires forall j :: 0 <= j < i ==> metas[j].property != metas[i].property
    ensures Fold(metas).Get(metas[i].property) == Some(Trim(metas[i].content))
    decreases |metas|
  {
    var init, last := metas[..|metas| - 1], metas[|metas| - 1];
    var p := metas[i].property;
    var og := Fold(init);
    assert Fold(metas) == if og.Has(last.property) then og else og.Set(last.property, Trim(last.content));
    if i == |metas| - 1 {
      FoldKeys(init);
      assert p !in Properties(init) by {
        forall j | 0 <= j < |init| ensures init[j].property != p {
          assert init[j] == metas[j];
        }
      }
      assert !og.Has(p) && last == metas[i];
      assert Fold(metas) == og.Set(p, Trim(last.content));
    } else {
      assert init[i] == metas[i];
      FoldFirstWins(init, i);
      assert og.Has(p);
      assert Fold(metas).Get(p) == og.Get(p);
    }
  }

  /** Every field holds the trimmed content of the first tag with that
      property. */
  lemma FoldValues(metas: seq<Meta>, p: string)
    requires p in Properties(metas)
    ensures Fold(metas).Get(p) == Some(Trim(metas[FirstIndex(metas, p)].content))
  {
    FoldFirstWins(metas, FirstIndex(metas, p));
  }

  /** A later tag whose property is already stored changes nothing. */
  lemma FoldIgnoresRepeat(metas: seq<Meta>, m: Meta)
    requires m.property in Properties(metas)
    ensures Fold(metas + [m]) == Fold(metas)
  {
    FoldKeys(metas);
    assert (metas + [m])[..|metas|] == metas;
  }

  /** The fields are ordered by where their property first occurs. */
  lemma {:induction false} FoldKeyOrder(metas: seq<Meta>)
    ensures forall k :: k in Fold(metas).keys ==> k in Properties(metas)
    ensures forall x, y :: 0 <= x < y < |Fold(metas).keys| ==>
      FirstIndex(metas, Fold(metas).keys[x]) < FirstIndex(metas, Fold(metas).keys[y])
    decreases |metas|
  {
    FoldKeys(metas);
    if metas != [] {
      var init, last := metas[..|metas| - 1], metas[|metas| - 1];
      FoldKeyOrder(init);
      FoldKeys(init);
      var og, keys := Fold(init), Fold(metas).keys;
      forall x, y | 0 <= x < y < |keys|
        ensures FirstIndex(metas, keys[x]) < FirstIndex(metas, keys[y])
      {
        assert keys[x] in og.keys;
        if y < |og.keys| {
          assert keys[y] == og.keys[y];
        } else {
          assert keys[y] == last.property && last.property !in Properties(init);
        }
      }
    }
  }
}
