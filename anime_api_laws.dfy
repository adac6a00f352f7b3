/** Properties of the catalogue client that relate several of its
    functions: the search fallback policy, token routing, and the chain
    from a search hit to its detail page, its episodes and their
    neighbours. */
module AnimeApiLaws {
  import opened Js
  import opened KuraToken
  import opened AnimeApi

  // =====================================================================
  // Search fallback

  /** When Samehadaku answers with hits, when its request throws, or when
      the page is not the first, Kuramanime's answer has no influence on
      the result: the fallback is not consulted. */
  lemma SearchIgnoresFallback(up1: Upstream, up2: Upstream, query: string, page: int)
    requires SearchUrl(up1, query, page) == SearchUrl(up2, query, page)
    requires up1.search(SearchUrl(up1, query, page)) == up2.search(SearchUrl(up2, query, page))
    requires var primary := up1.search(SearchUrl(up1, query, page));
      primary.Threw? || (primary.Ok? && HasHits(primary.body)) || page != 1
    ensures SearchAnime(up1, query, page) == SearchAnime(up2, query, page)
  {
  }

  /** On page 1, when Samehadaku answers without hits (or not 2xx),
      Kuramanime decides: a thrown request is null, no hits is the error
      result, and hits come back as one final page of Kuramanime items
      whose slugs the detail routing sends back to Kuramanime with the
      same id and native slug. */
  lemma SearchFallback(up: Upstream, query: string)
    requires var primary := up.search(SearchUrl(up, query, 1));
      !primary.Threw? && !(primary.Ok? && HasHits(primary.body))
    ensures var fallback := up.kuraSearch(KuraSearchUrl(up, query));
      var r := SearchAnime(up, query, 1);
      && r == KuraFallback(up, query)
      && (fallback.Threw? ==> r.None?)
      && (fallback.NotOk? ==> r == Some(SEARCH_ERROR))
      && (fallback.Ok? && (fallback.body.results.None? || fallback.body.results.value == []) ==> r == Some(SEARCH_ERROR))
      && (fallback.Ok? && fallback.body.results.Some? && fallback.body.results.value != [] ==>
            var hits := fallback.body.results.value;
            && r.Some? && r.value.status == fallback.body.status
            && r.value.pagination == Some(SINGLE_PAGE)
            && |r.value.data| == |hits|
            && forall i :: 0 <= i < |hits| ==>
                 && r.value.data[i].source == Some(Kuramanime)
                 && r.value.data[i].slug == AnimeToken(hits[i].id, hits[i].slug)
                 && r.value.data[i].title == hits[i].title
                 && r.value.data[i].poster == hits[i].image
                 && r.value.data[i].status == hits[i].status
                 && r.value.data[i].score == hits[i].rating
                 && r.value.data[i].kind == hits[i].kind
                 && (ValidNativeSlug(hits[i].slug) ==>
                       RouteDetail(r.value.data[i].slug) == KuraDetail(NatToString(hits[i].id), hits[i].slug)))
  {
    var fallback := up.kuraSearch(KuraSearchUrl(up, query));
    if fallback.Ok? && fallback.body.results.Some? && fallback.body.results.value != [] {
      var hits := fallback.body.results.value;
      forall i | 0 <= i < |hits| && ValidNativeSlug(hits[i].slug)
        ensures RouteDetail(AnimeToken(hits[i].id, hits[i].slug)) == KuraDetail(NatToString(hits[i].id), hits[i].slug)
      {
        KuraHitRoutesBack(hits[i]);
      }
    }
  }

  // =====================================================================
  // Routing of detail tokens

  /** A Kuramanime hit's token routes to Kuramanime's detail endpoint for
      that hit's printed id and native slug. */
  lemma KuraHitRoutesBack(k: RawKuraAnime)
    requires ValidNativeSlug(k.slug)
    ensures RouteDetail(KuraSearchItem(k).slug) == KuraDetail(NatToString(k.id), k.slug)
    ensures DetailUrl(RouteDetail(KuraSearchItem(k).slug))
         == KURA_URL + "/anime/" + NatToString(k.id) + "/" + k.slug
  {
    var t := AnimeToken(k.id, k.slug);
    AnimeTokenRoundTrip(k.id, k.slug);
    assert t[..|PREFIX|] == PREFIX;
  }

  /** A token without the prefix goes to Samehadaku's detail endpoint as
      the path segment, unchanged, and Kuramanime's answers do not matter. */
  lemma DetailPassesNativeTokens(up1: Upstream, up2: Upstream, token: string)
    requires !StartsWith(token, PREFIX)
    requires up1.detail(BASE_URL + "/anime/" + token) == up2.detail(BASE_URL + "/anime/" + token)
    ensures RouteDetail(token) == SameDetail(token)
    ensures DetailUrl(RouteDetail(token)) == BASE_URL + "/anime/" + token
    ensures AnimeDetailOf(up1, token) == AnimeDetailOf(up2, token)
  {
  }

  /** A prefixed token the regular expression rejects is null before any
      request. */
  lemma DetailRejectsMalformedTokens(up: Upstream, token: string)
    requires StartsWith(token, PREFIX) && MatchAnimeToken(token).None?
    ensures AnimeDetailOf(up, token).None?
  {
  }

  /** A well-formed anime token is answered from Kuramanime's detail
      endpoint for its id and slug alone; Samehadaku is not asked. */
  lemma DetailOfAnimeToken(up1: Upstream, up2: Upstream, id: nat, slug: string)
    requires ValidNativeSlug(slug)
    requires var url := KURA_URL + "/anime/" + NatToString(id) + "/" + slug;
      up1.kuraDetail(url) == up2.kuraDetail(url)
    ensures RouteDetail(AnimeToken(id, slug)) == KuraDetail(NatToString(id), slug)
    ensures AnimeDetailOf(up1, AnimeToken(id, slug)) == AnimeDetailOf(up2, AnimeToken(id, slug))
  {
    AnimeTokenRoundTrip(id, slug);
    assert AnimeToken(id, slug)[..|PREFIX|] == PREFIX;
  }

  /** The detail keeps the token it was asked for as its slug, whichever
      provider answered. */
  lemma DetailKeepsToken(up: Upstream, token: string)
    requires AnimeDetailOf(up, token).Some?
    ensures AnimeDetailOf(up, token).value.data.slug == token
  {
  }

  // =====================================================================
  // Episode tokens

  /** Every episode link of a Kuramanime detail routes to Kuramanime's
      watch endpoint for the anime's id, its native slug and that
      episode. */
  lemma KuraEpisodeLinksRoute(token: string, d: RawKuraDetail)
    requires MatchAnimeToken(token).Some?
    ensures var (id, slug) := MatchAnimeToken(token).value;
      var links := KuraDetailData(token, d).episodeLists;
      forall i :: 0 <= i < |links| ==>
        && links[i].title == "Episode " + NatToString(d.episode.value[i])
        && RouteEpisode(links[i].slug) == KuraWatch(id, slug, NatToString(d.episode.value[i]))
  {
    var (id, slug) := MatchAnimeToken(token).value;
    var links := KuraDetailData(token, d).episodeLists;
    forall i | 0 <= i < |links|
      ensures RouteEpisode(links[i].slug) == KuraWatch(id, slug, NatToString(d.episode.value[i]))
    {
      var ep := d.episode.value[i];
      EpisodeOfAnimeRoundTrip(token, ep);
      EpisodeTokenExtends(token, ep);
      assert token[..|PREFIX|] == PREFIX;
      assert (token + "-" + NatToString(ep))[..|PREFIX|] == PREFIX;
    }
  }

  /** A token without the prefix goes to Samehadaku's episode endpoint as
      the path segment, unchanged. */
  lemma EpisodePassesNativeTokens(up1: Upstream, up2: Upstream, token: string)
    requires !StartsWith(token, PREFIX)
    requires up1.episode(BASE_URL + "/episode/" + token) == up2.episode(BASE_URL + "/episode/" + token)
    ensures RouteEpisode(token) == SameEpisode(token)
    ensures EpisodeUrl(RouteEpisode(token)) == BASE_URL + "/episode/" + token
    ensures EpisodeOf(up1, token) == EpisodeOf(up2, token)
  {
  }

  /** A prefixed episode token with fewer than four '-'-separated parts is
      null before any request. */
  lemma ShortEpisodeTokenIsNull(up: Upstream, token: string)
    requires StartsWith(token, PREFIX) && |Split(token, '-')| < 4
    ensures EpisodeOf(up, token).None?
  {
  }

  /** The previous and next episodes of a Kuramanime episode are null
      exactly when the navigation value is falsy; otherwise their slugs
      route to the same anime with the navigation value as episode. */
  lemma KuraNeighboursChain(token: string, json: RawWatchJson)
    requires RouteEpisode(token).KuraWatch?
    ensures var route := RouteEpisode(token);
      var e := KuraEpisodeData(token, json);
      && (e.prevEpisode.Some? <==> PrevOf(json).Some? && PrevOf(json).value != 0)
      && (e.nextEpisode.Some? <==> NextOf(json).Some? && NextOf(json).value != 0)
      && (e.prevEpisode.Some? ==>
            RouteEpisode(e.prevEpisode.value.slug) == KuraWatch(route.id, route.slug, NatToString(PrevOf(json).value)))
      && (e.nextEpisode.Some? ==>
            RouteEpisode(e.nextEpisode.value.slug) == KuraWatch(route.id, route.slug, NatToString(NextOf(json).value)))
  {
    var e := KuraEpisodeData(token, json);
    if e.prevEpisode.Some? {
      NeighbourRoutes(token, PrevOf(json).value);
    }
    if e.nextEpisode.Some? {
      NeighbourRoutes(token, NextOf(json).value);
    }
  }

  lemma NeighbourRoutes(token: string, nav: nat)
    requires RouteEpisode(token).KuraWatch?
    ensures var route := RouteEpisode(token);
      RouteEpisode(NeighbourToken(token, nav)) == KuraWatch(route.id, route.slug, NatToString(nav))
  {
    NeighbourTokenKeepsAnime(token, nav);
    var t := NeighbourToken(token, nav);
    assert t[..|PREFIX|] == PREFIX;
  }

  // =====================================================================
  // Downloads and streams

  /** Entry QualityCount(fs[..i]) + j of the flattened downloads is
      quality j of format i, labelled "<format> - <quality>"; together with
      the length, there is exactly one entry per (format, quality) pair,
      in source order, and formats without qualities contribute none. */
  lemma {:induction false} FlattenAt(fs: seq<RawFormat>, i: nat, j: nat)
    requires i < |fs| && fs[i].qualities.Some? && j < |fs[i].qualities.value|
    ensures QualityCount(fs[..i]) + j < |FlattenFormats(fs)|
    ensures FlattenFormats(fs)[QualityCount(fs[..i]) + j]
         == Download(fs[i].title + " - " + fs[i].qualities.value[j].title, LinksOf(fs[i].qualities.value[j].urls))
    decreases |fs|
  {
    var init := fs[..|fs| - 1];
    if i == |fs| - 1 {
      assert init == fs[..i];
    } else {
      assert init[..i] == fs[..i];
      assert init[i] == fs[i];
      FlattenAt(init, i, j);
    }
  }

  /** Kuramanime groups map one to one, in order, keeping only links with
      a url. */
  lemma KuraDownloadsShape(groups: seq<RawKuraDownload>)
    ensures |KuraDownloads(groups)| == |groups|
    ensures forall i :: 0 <= i < |groups| ==>
      && KuraDownloads(groups)[i].quality == groups[i].qualityGroup
      && forall k :: 0 <= k < |KuraDownloads(groups)[i].links| ==> KuraDownloads(groups)[i].links[k].url != ""
  {
  }
}
