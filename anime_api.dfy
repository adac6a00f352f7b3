/** The catalogue client: it asks Samehadaku first and Kuramanime second,
    routes composite `kura-…` tokens to Kuramanime's endpoints and every
    other token to Samehadaku's, and maps each provider's JSON into the
    records the pages render.

    The network is an oracle: `Upstream` answers every URL with the body
    that endpoint returns, or with a failure. Each exported operation is
    then a function of its arguments and of that oracle. */
module AnimeApi {
  import opened Js
  import opened Lists
  import opened KuraToken

  const BASE_URL := "https://www.sankavollerei.com/anime/samehadaku"
  const KURA_URL := "https://www.sankavollerei.com/anime/kura"

  // =====================================================================
  // Canonical records

  datatype Source = Samehadaku | Kuramanime

  datatype Genre = Genre(title: string, genreId: string, href: string)

  /** A list item. `kind` is the JSON field `type`. */
  datatype AnimeResult = AnimeResult(
    title: string, slug: string, poster: string,
    status: Option<string>, score: Option<string>, kind: Option<string>,
    episodes: Option<string>, releasedOn: Option<string>,
    genreList: Option<seq<Genre>>, source: Option<Source>)

  datatype Pagination = Pagination(
    currentPage: int, hasPrevPage: bool, prevPage: Option<int>,
    hasNextPage: bool, nextPage: Option<int>, totalPages: int)

  /** `{status, data, pagination?}`; getHome has no pagination. */
  datatype ListResponse = ListResponse(status: string, data: seq<AnimeResult>, pagination: Option<Pagination>)

  datatype BatchRef = BatchRef(title: string, batchId: string, href: string)

  datatype EpisodeLink = EpisodeLink(title: string, slug: string, href: string)

  /** An anime's detail page. `batch` has three states: None is an absent
      field (Kuramanime), Some(None) is null, Some(Some(b)) is a batch. */
  datatype AnimeDetail = AnimeDetail(
    title: string, slug: string, poster: string, synopsis: string,
    japaneseTitle: Option<string>, englishTitle: Option<string>,
    rating: Option<string>, producers: Option<string>, kind: Option<string>,
    status: Option<string>, episodeCount: Option<string>, duration: Option<string>,
    aired: Option<string>, studios: Option<string>, genres: Option<seq<Genre>>,
    batch: Option<Option<BatchRef>>, episodeLists: seq<EpisodeLink>)

  datatype DetailResponse = DetailResponse(status: string, data: AnimeDetail)

  datatype EpisodeRef = EpisodeRef(slug: string, href: string)
  datatype ServerEntry = ServerEntry(title: string, serverId: string, href: string)
  datatype ServerQuality = ServerQuality(title: string, serverList: seq<ServerEntry>)
  datatype Server = Server(qualities: seq<ServerQuality>)
  datatype DownloadLink = DownloadLink(provider: string, url: string)
  datatype Download = Download(quality: string, links: seq<DownloadLink>)

  datatype EpisodeDetail = EpisodeDetail(
    title: string, streamUrl: string,
    prevEpisode: Option<EpisodeRef>, nextEpisode: Option<EpisodeRef>,
    server: Option<Server>, downloadUrls: seq<Download>)

  datatype EpisodeResponse = EpisodeResponse(status: string, data: EpisodeDetail)

  datatype BatchUrl = BatchUrl(title: string, url: string)
  datatype BatchQuality = BatchQuality(title: string, size: string, urls: seq<BatchUrl>)
  datatype BatchFormat = BatchFormat(title: string, qualities: seq<BatchQuality>)
  datatype BatchDetail = BatchDetail(
    title: string, animeId: string, poster: string, japanese: string, kind: string,
    score: string, duration: string, studios: string, producers: string, aired: string,
    credit: string, genreList: seq<Genre>, downloadFormats: seq<BatchFormat>)
  datatype BatchResponse = BatchResponse(status: string, data: BatchDetail)

  // =====================================================================
  // What the providers send

  /** One HTTP exchange: the request or the body parse threw, the status
      was not 2xx, or a body arrived. */
  datatype Fetch<+T> = Threw | NotOk | Ok(body: T)

  /** A Samehadaku list entry (home, search, ongoing). */
  datatype RawAnime = RawAnime(
    title: string, animeId: string, poster: string,
    episodes: Option<string>, releasedOn: Option<string>,
    status: Option<string>, score: Option<string>, kind: Option<string>,
    genreList: Option<seq<Genre>>)

  datatype RawAnimeList = RawAnimeList(animeList: Option<seq<RawAnime>>)
  datatype RawHomeData = RawHomeData(recent: Option<RawAnimeList>)
  datatype RawHomeJson = RawHomeJson(status: string, data: Option<RawHomeData>)
  datatype RawListJson = RawListJson(status: string, data: Option<RawAnimeList>, pagination: Option<Pagination>)

  /** A Kuramanime search hit; `id` is numeric. */
  datatype RawKuraAnime = RawKuraAnime(
    id: nat, slug: string, title: string, image: string,
    status: Option<string>, rating: Option<string>, kind: Option<string>)
  datatype RawKuraSearchJson = RawKuraSearchJson(status: string, results: Option<seq<RawKuraAnime>>)

  datatype RawScore = RawScore(value: Option<string>)
  datatype RawSynopsis = RawSynopsis(paragraphs: Option<seq<string>>)
  datatype RawEpisodeEntry = RawEpisodeEntry(title: string, episodeId: string, href: string)
  datatype RawDetail = RawDetail(
    title: Option<string>, english: Option<string>, japanese: Option<string>,
    synonyms: Option<string>, poster: string, synopsis: Option<RawSynopsis>,
    score: Option<RawScore>, producers: Option<string>, kind: Option<string>,
    status: Option<string>, episodes: Option<string>, duration: Option<string>,
    aired: Option<string>, studios: Option<string>, genreList: Option<seq<Genre>>,
    batchList: Option<seq<BatchRef>>, episodeList: Option<seq<RawEpisodeEntry>>)
  datatype RawDetailJson = RawDetailJson(status: string, data: Option<RawDetail>)

  /** One `{type, data}` row of a Kuramanime detail; `name` is the JSON field `type`. */
  datatype RawKuraInfo = RawKuraInfo(name: string, data: Option<string>)
  datatype RawKuraDetail = RawKuraDetail(
    title: string, image: string, description: string, titleRaw: Option<string>,
    details: Option<seq<RawKuraInfo>>, episode: Option<seq<nat>>)
  datatype RawKuraDetailJson = RawKuraDetailJson(status: string, results: Option<RawKuraDetail>)

  datatype RawEpisodeNeighbour = RawEpisodeNeighbour(episodeId: string, href: string)
  datatype RawUrl = RawUrl(title: string, url: string)
  datatype RawQuality = RawQuality(title: string, urls: seq<RawUrl>)
  datatype RawFormat = RawFormat(title: string, qualities: Option<seq<RawQuality>>)
  datatype RawDownloadUrl = RawDownloadUrl(formats: Option<seq<RawFormat>>)
  datatype RawEpisode = RawEpisode(
    title: string, defaultStreamingUrl: string,
    hasPrevEpisode: bool, prevEpisode: Option<RawEpisodeNeighbour>,
    hasNextEpisode: bool, nextEpisode: Option<RawEpisodeNeighbour>,
    server: Option<Server>, downloadUrl: Option<RawDownloadUrl>)
  datatype RawEpisodeJson = RawEpisodeJson(status: string, data: Option<RawEpisode>)

  /** Kuramanime's watch endpoint: fields at the top level, no `data`. */
  datatype RawStream = RawStream(quality: string, url: string)
  datatype RawKuraLink = RawKuraLink(provider: string, url: Option<string>)
  datatype RawKuraDownload = RawKuraDownload(qualityGroup: string, links: seq<RawKuraLink>)
  datatype RawNavigation = RawNavigation(prev: Option<nat>, next: Option<nat>)
  datatype RawWatchJson = RawWatchJson(
    status: string, title: Option<string>, streams: Option<seq<RawStream>>,
    downloads: Option<seq<RawKuraDownload>>, navigation: Option<RawNavigation>)

  /** The outside world: URL encoding of a query, and one fetch per
      response schema, keyed by the requested URL. */
  datatype Upstream = Upstream(
    encodeUriComponent: string -> string,
    home: string -> Fetch<RawHomeJson>,
    search: string -> Fetch<RawListJson>,
    kuraSearch: string -> Fetch<RawKuraSearchJson>,
    detail: string -> Fetch<RawDetailJson>,
    kuraDetail: string -> Fetch<RawKuraDetailJson>,
    episode: string -> Fetch<RawEpisodeJson>,
    kuraWatch: string -> Fetch<RawWatchJson>,
    batch: string -> Fetch<BatchResponse>,
    ongoing: string -> Fetch<RawListJson>)

  // =====================================================================
  // getHome

  const HOME_URL := BASE_URL + "/home"

  /** `json.data?.recent?.animeList`, or [] when any step is missing. */
  function RecentList(json: RawHomeJson): seq<RawAnime> {
    if json.data.Some? && json.data.value.recent.Some? && json.data.value.recent.value.animeList.Some?
    then json.data.value.recent.value.animeList.value
    else []
  }

  function HomeItem(a: RawAnime): AnimeResult {
    AnimeResult(a.title, a.animeId, a.poster, a.status, a.score, a.kind,
                a.episodes, a.releasedOn, a.genreList, Some(Samehadaku))
  }

  /** Home: the recent list, each entry addressed by its Samehadaku id and
      tagged as Samehadaku; a failed request is null. */
  function GetHome(up: Upstream): (r: Option<ListResponse>)
    ensures r.Some? <==> up.home(HOME_URL).Ok?
    ensures r.Some? ==>
      var list := RecentList(up.home(HOME_URL).body);
      && r.value.status == up.home(HOME_URL).body.status
      && r.value.pagination.None?
      && |r.value.data| == |list|
      && forall i :: 0 <= i < |list| ==>
           && r.value.data[i].slug == list[i].animeId
           && r.value.data[i].title == list[i].title
           && r.value.data[i].poster == list[i].poster
           && r.value.data[i].episodes == list[i].episodes
           && r.value.data[i].releasedOn == list[i].releasedOn
           && r.value.data[i].status == list[i].status
           && r.value.data[i].score == list[i].score
           && r.value.data[i].kind == list[i].kind
           && r.value.data[i].genreList == list[i].genreList
           && r.value.data[i].source == Some(Samehadaku)
  {
    match up.home(HOME_URL)
    case Ok(json) =>
      var list := RecentList(json);
      Some(ListResponse(json.status, seq(|list|, i requires 0 <= i < |list| => HomeItem(list[i])), None))
    case _ => None
  }

  // =====================================================================
  // searchAnime

  function SearchUrl(up: Upstream, query: string, page: int): string {
    BASE_URL + "/search?q=" + up.encodeUriComponent(query) + "&page=" + IntToString(page)
  }

  function KuraSearchUrl(up: Upstream, query: string): string {
    KURA_URL + "/search/" + up.encodeUriComponent(query)
  }

  /** `json.data?.animeList && json.data.animeList.length > 0`. */
  predicate HasHits(json: RawListJson) {
    json.data.Some? && json.data.value.animeList.Some? && |json.data.value.animeList.value| > 0
  }

  function SearchItem(a: RawAnime): AnimeResult {
    AnimeResult(a.title, a.animeId, a.poster, a.status, a.score, a.kind,
                None, None, a.genreList, Some(Samehadaku))
  }

  /** A Kuramanime hit, addressed by the composite token `kura-<id>-<slug>`. */
  function KuraSearchItem(k: RawKuraAnime): AnimeResult {
    AnimeResult(k.title, AnimeToken(k.id, k.slug), k.image, k.status, k.rating, k.kind,
                None, None, None, Some(Kuramanime))
  }

  /** A fallback result is one final page. */
  const SINGLE_PAGE := Pagination(1, false, None, false, None, 1)

  /** Nothing found by either provider (not a failure: no exception). */
  const SEARCH_ERROR := ListResponse("error", [], None)

  /** Kuramanime's search as the fallback: a thrown request is null, a
      non-2xx answer or no hits is the error result, and hits become one
      final page of Kuramanime items addressed by their anime tokens. */
  function KuraFallback(up: Upstream, query: string): (r: Option<ListResponse>)
    ensures var f := up.kuraSearch(KuraSearchUrl(up, query));
      && (f.Threw? ==> r.None?)
      && (f.NotOk? ==> r == Some(SEARCH_ERROR))
      && (f.Ok? && (f.body.results.None? || f.body.results.value == []) ==> r == Some(SEARCH_ERROR))
      && (f.Ok? && f.body.results.Some? && f.body.results.value != [] ==>
            var hits := f.body.results.value;
            && r.Some? && r.value.status == f.body.status
            && r.value.pagination == Some(SINGLE_PAGE)
            && |r.value.data| == |hits|
            && forall i :: 0 <= i < |hits| ==>
                 && r.value.data[i].title == hits[i].title
                 && r.value.data[i].slug == AnimeToken(hits[i].id, hits[i].slug)
                 && r.value.data[i].poster == hits[i].image
                 && r.value.data[i].status == hits[i].status
                 && r.value.data[i].score == hits[i].rating
                 && r.value.data[i].kind == hits[i].kind
                 && r.value.data[i].episodes.None? && r.value.data[i].releasedOn.None?
                 && r.value.data[i].genreList.None?
                 && r.value.data[i].source == Some(Kuramanime))
  {
    match up.kuraSearch(KuraSearchUrl(up, query))
    case Threw => None
    case NotOk => Some(SEARCH_ERROR)
    case Ok(k) =>
      if k.results.Some? && |k.results.value| > 0 then
        var hits := k.results.value;
        Some(ListResponse(k.status, seq(|hits|, i requires 0 <= i < |hits| => KuraSearchItem(hits[i])), Some(SINGLE_PAGE)))
      else Some(SEARCH_ERROR)
  }

  /** Search: Samehadaku's hits with its own pagination when there are
      any; otherwise, on page 1 only, Kuramanime's hits as one page;
      otherwise the error result. A thrown request is null. */
  function SearchAnime(up: Upstream, query: string, page: int := 1): (r: Option<ListResponse>)
    ensures var primary := up.search(SearchUrl(up, query, page));
      && (primary.Threw? ==> r.None?)
      && (primary.Ok? && HasHits(primary.body) ==>
            var hits := primary.body.data.value.animeList.value;
            && r.Some? && r.value.status == primary.body.status
            && r.value.pagination == primary.body.pagination
            && |r.value.data| == |hits|
            && forall i :: 0 <= i < |hits| ==>
                 && r.value.data[i].title == hits[i].title
                 && r.value.data[i].slug == hits[i].animeId
                 && r.value.data[i].poster == hits[i].poster
                 && r.value.data[i].status == hits[i].status
                 && r.value.data[i].score == hits[i].score
                 && r.value.data[i].kind == hits[i].kind
                 && r.value.data[i].episodes.None? && r.value.data[i].releasedOn.None?
                 && r.value.data[i].genreList == hits[i].genreList
                 && r.value.data[i].source == Some(Samehadaku))
      && (!primary.Threw? && !(primary.Ok? && HasHits(primary.body)) && page != 1 ==> r == Some(SEARCH_ERROR))
      && (!primary.Threw? && !(primary.Ok? && HasHits(primary.body)) && page == 1 ==> r == KuraFallback(up, query))
    ensures r.Some? && r.value.data == [] ==> r == Some(SEARCH_ERROR)
  {
    var primary := up.search(SearchUrl(up, query, page));
    if primary.Threw? then None
    else if primary.Ok? && HasHits(primary.body) then
      var hits := primary.body.data.value.animeList.value;
      Some(ListResponse(primary.body.status, seq(|hits|, i requires 0 <= i < |hits| => SearchItem(hits[i])), primary.body.pagination))
    else if page == 1 then KuraFallback(up, query)
    else Some(SEARCH_ERROR)
  }

  // =====================================================================
  // getAnimeDetail

  /** Where a detail token is sent. */
  datatype DetailRoute = SameDetail(slug: string) | KuraDetail(id: string, slug: string) | BadKuraToken

  /** Unprefixed tokens go to Samehadaku as they are; prefixed ones to
      Kuramanime with the id and slug the regular expression captures, from
      which the token is rebuilt; the rest are rejected. */
  function RouteDetail(token: string): (r: DetailRoute)
    ensures r.SameDetail? <==> !StartsWith(token, PREFIX)
    ensures r.SameDetail? ==> r.slug == token
    ensures r.BadKuraToken? <==> StartsWith(token, PREFIX) && MatchAnimeToken(token).None?
    ensures r.KuraDetail? ==>
      ValidId(r.id) && ValidNativeSlug(r.slug) && token == PREFIX + r.id + "-" + r.slug
  {
    if !StartsWith(token, PREFIX) then SameDetail(token)
    else match MatchAnimeToken(token)
      case Some((id, slug)) => KuraDetail(id, slug)
      case None => BadKuraToken
  }

  function DetailUrl(route: DetailRoute): string
    requires !route.BadKuraToken?
  {
    match route
    case SameDetail(slug) => BASE_URL + "/anime/" + slug
    case KuraDetail(id, slug) => KURA_URL + "/anime/" + id + "/" + slug
  }

  /** `d.title || d.english || d.japanese || d.synonyms || "Unknown Title"`. */
  function DetailTitle(d: RawDetail): (t: string)
    ensures t != ""
    ensures Truthy(d.title) ==> t == d.title.value
    ensures !Truthy(d.title) && Truthy(d.english) ==> t == d.english.value
    ensures !Truthy(d.title) && !Truthy(d.english) && Truthy(d.japanese) ==> t == d.japanese.value
    ensures !Truthy(d.title) && !Truthy(d.english) && !Truthy(d.japanese) && Truthy(d.synonyms) ==> t == d.synonyms.value
    ensures !Truthy(d.title) && !Truthy(d.english) && !Truthy(d.japanese) && !Truthy(d.synonyms) ==> t == "Unknown Title"
  {
    if Truthy(d.title) then d.title.value
    else if Truthy(d.english) then d.english.value
    else if Truthy(d.japanese) then d.japanese.value
    else if Truthy(d.synonyms) then d.synonyms.value
    else "Unknown Title"
  }

  /** `d.synopsis?.paragraphs?.join("\n\n") || ""`. */
  function Synopsis(s: Option<RawSynopsis>): (r: string)
    ensures (s.None? || s.value.paragraphs.None? || s.value.paragraphs.value == []) ==> r == ""
    ensures s.Some? && s.value.paragraphs.Some? && |s.value.paragraphs.value| == 1 ==> r == s.value.paragraphs.value[0]
    ensures s.Some? && s.value.paragraphs.Some? && |s.value.paragraphs.value| >= 2 ==>
      var p := s.value.paragraphs.value;
      r == p[0] + "\n\n" + Join(p[1..], "\n\n")
  {
    if s.Some? && s.value.paragraphs.Some? then Join(s.value.paragraphs.value, "\n\n") else ""
  }

  /** `d.batchList?.[0] ? {…} : null`. */
  function FirstBatch(list: Option<seq<BatchRef>>): (b: Option<BatchRef>)
    ensures b.Some? <==> list.Some? && |list.value| > 0
    ensures b.Some? ==> b.value == list.value[0]
  {
    if list.Some? && |list.value| > 0 then Some(list.value[0]) else None
  }

  function SameEpisodeList(list: Option<seq<RawEpisodeEntry>>): (r: seq<EpisodeLink>)
    ensures list.None? ==> r == []
    ensures list.Some? ==> |r| == |list.value| && forall i :: 0 <= i < |r| ==>
      r[i] == EpisodeLink(list.value[i].title, list.value[i].episodeId, list.value[i].href)
  {
    if list.None? then []
    else seq(|list.value|, i requires 0 <= i < |list.value| =>
           EpisodeLink(list.value[i].title, list.value[i].episodeId, list.value[i].href))
  }

  function SameDetailData(token: string, d: RawDetail): AnimeDetail {
    AnimeDetail(
      title := DetailTitle(d), slug := token, poster := d.poster, synopsis := Synopsis(d.synopsis),
      japaneseTitle := d.japanese, englishTitle := d.english,
      rating := if d.score.Some? then d.score.value.value else None,
      producers := d.producers, kind := d.kind, status := d.status, episodeCount := d.episodes,
      duration := d.duration, aired := d.aired, studios := d.studios, genres := d.genreList,
      batch := Some(FirstBatch(d.batchList)), episodeLists := SameEpisodeList(d.episodeList))
  }

  /** `d.details?.find(x => x.type === heading)?.data`. */
  function Info(details: Option<seq<RawKuraInfo>>, heading: string): (r: Option<string>)
    ensures details.None? ==> r.None?
    ensures details.Some? && (forall k :: 0 <= k < |details.value| ==> details.value[k].name != heading) ==> r.None?
    ensures details.Some? ==> forall i ::
      (0 <= i < |details.value| && details.value[i].name == heading
       && forall m :: 0 <= m < i ==> details.value[m].name != heading) ==> r == details.value[i].data
  {
    if details.None? then None
    else
      var i := FindFirst(details.value, (x: RawKuraInfo) => x.name == heading);
      if i < 0 then None else details.value[i].data
  }

  function GenreOf(g: string): Genre {
    Genre(Trim(g), ToLower(Trim(g)), "")
  }

  /** The "Genre:" row split on ',', each name trimmed, its id lower-cased,
      or [] when there is no such row or it has no data. */
  function KuraGenres(details: Option<seq<RawKuraInfo>>): (r: seq<Genre>)
    ensures Info(details, "Genre:").None? ==> r == []
    ensures Info(details, "Genre:").Some? ==>
      var names := Split(Info(details, "Genre:").value, ',');
      && |r| == |names|
      && forall i :: 0 <= i < |r| ==>
           r[i].title == Trim(names[i]) && r[i].genreId == ToLower(r[i].title) && r[i].href == ""
  {
    var info := Info(details, "Genre:");
    if info.None? then []
    else
      var names := Split(info.value, ',');
      seq(|names|, i requires 0 <= i < |names| => GenreOf(names[i]))
  }

  /** Kuramanime episode numbers become links whose slugs extend the anime
      token with the episode. */
  function KuraEpisodeList(token: string, eps: Option<seq<nat>>): (r: seq<EpisodeLink>)
    ensures eps.None? ==> r == []
    ensures eps.Some? ==> |r| == |eps.value| && forall i :: 0 <= i < |r| ==>
      r[i] == EpisodeLink("Episode " + NatToString(eps.value[i]), EpisodeToken(token, eps.value[i]), "")
  {
    if eps.None? then []
    else seq(|eps.value|, i requires 0 <= i < |eps.value| =>
           EpisodeLink("Episode " + NatToString(eps.value[i]), EpisodeToken(token, eps.value[i]), ""))
  }

  function KuraDetailData(token: string, d: RawKuraDetail): AnimeDetail {
    AnimeDetail(
      title := d.title, slug := token, poster := d.image, synopsis := d.description,
      japaneseTitle := d.titleRaw, englishTitle := None,
      rating := Info(d.details, "Skor:"), producers := None, kind := Info(d.details, "Tipe:"),
      status := Info(d.details, "Status:"), episodeCount := Info(d.details, "Episode:"),
      duration := Info(d.details, "Durasi:"), aired := Info(d.details, "Tayang:"),
      studios := Info(d.details, "Studio:"), genres := Some(KuraGenres(d.details)),
      batch := None, episodeLists := KuraEpisodeList(token, d.episode))
  }

  /** What getAnimeDetail returns for a token: null for a rejected token
      or a failed exchange, otherwise the routed provider's detail mapped
      into the canonical record, whose slug is the token asked for. */
  function AnimeDetailOf(up: Upstream, token: string): (r: Option<DetailResponse>)
    ensures RouteDetail(token).BadKuraToken? ==> r.None?
    ensures r.Some? ==> r.value.data.slug == token
    ensures RouteDetail(token).SameDetail? ==>
      var f := up.detail(BASE_URL + "/anime/" + token);
      && (r.Some? <==> f.Ok? && f.body.data.Some?)
      && (r.Some? ==> r.value == DetailResponse(f.body.status, SameDetailData(token, f.body.data.value)))
    ensures RouteDetail(token).KuraDetail? ==>
      var f := up.kuraDetail(DetailUrl(RouteDetail(token)));
      && (r.Some? <==> f.Ok? && f.body.results.Some?)
      && (r.Some? ==> r.value == DetailResponse(f.body.status, KuraDetailData(token, f.body.results.value)))
  {
    var route := RouteDetail(token);
    match route
    case BadKuraToken => None
    case SameDetail(_) =>
      (match up.detail(DetailUrl(route))
       case Ok(json) =>
         if json.data.Some? then Some(DetailResponse(json.status, SameDetailData(token, json.data.value))) else None
       case _ => None)
    case KuraDetail(_, _) =>
      (match up.kuraDetail(DetailUrl(route))
       case Ok(json) =>
         if json.results.Some? then Some(DetailResponse(json.status, KuraDetailData(token, json.results.value))) else None
       case _ => None)
  }

  /** getAnimeDetail, with its routing written as the source writes it. */
  method GetAnimeDetail(up: Upstream, slug: string) returns (r: Option<DetailResponse>)
    ensures r == AnimeDetailOf(up, slug)
  {
    var url := BASE_URL + "/anime/" + slug;
    var isKuramanime := false;
    if StartsWith(slug, PREFIX) {
      isKuramanime := true;
      var m := MatchAnimeToken(slug);
      if m.Some? {
        url := KURA_URL + "/anime/" + m.value.0 + "/" + m.value.1;
      } else {
        // "Invalid Kuramanime slug format" is thrown and caught: null
        return None;
      }
    }
    if isKuramanime {
      var res := up.kuraDetail(url);
      if res.Ok? && res.body.results.Some? {
        r := Some(DetailResponse(res.body.status, KuraDetailData(slug, res.body.results.value)));
      } else {
        r := None;
      }
    } else {
      var res := up.detail(url);
      if res.Ok? && res.body.data.Some? {
        r := Some(DetailResponse(res.body.status, SameDetailData(slug, res.body.data.value)));
      } else {
        r := None;
      }
    }
  }

  // =====================================================================
  // getBatch

  /** Batch: always Samehadaku, token verbatim, body returned as sent. */
  function GetBatch(up: Upstream, slug: string): (r: Option<BatchResponse>)
    ensures r.Some? <==> up.batch(BASE_URL + "/batch/" + slug).Ok?
    ensures r.Some? ==> r.value == up.batch(BASE_URL + "/batch/" + slug).body
  {
    match up.batch(BASE_URL + "/batch/" + slug)
    case Ok(json) => Some(json)
    case _ => None
  }

  // =====================================================================
  // getEpisode: downloads

  function LinksOf(urls: seq<RawUrl>): seq<DownloadLink> {
    seq(|urls|, k requires 0 <= k < |urls| => DownloadLink(urls[k].title, urls[k].url))
  }

  function QualityEntry(formatTitle: string, q: RawQuality): Download {
    Download(formatTitle + " - " + q.title, LinksOf(q.urls))
  }

  function QualityEntries(formatTitle: string, qs: seq<RawQuality>): seq<Download> {
    seq(|qs|, j requires 0 <= j < |qs| => QualityEntry(formatTitle, qs[j]))
  }

  function FormatEntries(f: RawFormat): seq<Download> {
    if f.qualities.None? then [] else QualityEntries(f.title, f.qualities.value)
  }

  /** How many (format, quality) pairs there are; a format without
      qualities has none. */
  function QualityCount(fs: seq<RawFormat>): nat
    decreases |fs|
  {
    if fs == [] then 0
    else QualityCount(fs[..|fs| - 1]) + (if fs[|fs| - 1].qualities.None? then 0 else |fs[|fs| - 1].qualities.value|)
  }

  /** Samehadaku's download formats flattened, one entry per (format,
      quality) pair, in order. */
  function FlattenFormats(fs: seq<RawFormat>): (r: seq<Download>)
    ensures |r| == QualityCount(fs)
    decreases |fs|
  {
    if fs == [] then [] else FlattenFormats(fs[..|fs| - 1]) + FormatEntries(fs[|fs| - 1])
  }

  /** The push loop over formats and their qualities. */
  method FlattenDownloads(formats: seq<RawFormat>) returns (r: seq<Download>)
    ensures r == FlattenFormats(formats)
  {
    r := [];
    var i := 0;
    while i < |formats|
      invariant 0 <= i <= |formats|
      invariant r == FlattenFormats(formats[..i])
    {
      var format := formats[i];
      if format.qualities.Some? {
        var qs := format.qualities.value;
        var j := 0;
        while j < |qs|
          invariant 0 <= j <= |qs|
          invariant r == FlattenFormats(formats[..i]) + QualityEntries(format.title, qs[..j])
        {
          r := r + [Download(format.title + " - " + qs[j].title, LinksOf(qs[j].urls))];
          assert QualityEntries(format.title, qs[..j + 1])
              == QualityEntries(format.title, qs[..j]) + [QualityEntry(format.title, qs[j])];
          j := j + 1;
        }
        assert qs[..j] == qs;
      }
      assert formats[..i + 1][..i] == formats[..i];
      i := i + 1;
    }
    assert formats[..i] == formats;
  }

  /** `l.url || ''`. */
  function UrlOrEmpty(u: Option<string>): string {
    if u.Some? then u.value else ""
  }

  /** Each link as `{provider, url: l.url || ''}`. */
  function MappedLinks(ls: seq<RawKuraLink>): seq<DownloadLink> {
    seq(|ls|, k requires 0 <= k < |ls| => DownloadLink(ls[k].provider, UrlOrEmpty(ls[k].url)))
  }

  predicate HasUrl(l: DownloadLink) {
    l.url != ""
  }

  /** A group's links with the empty or missing urls dropped: the others
      stay in their order, each as often as it occurs. */
  function KeptLinks(ls: seq<RawKuraLink>): (r: seq<DownloadLink>)
    ensures forall k :: 0 <= k < |r| ==> r[k].url != ""
    ensures forall k :: 0 <= k < |ls| && Truthy(ls[k].url) ==> DownloadLink(ls[k].provider, ls[k].url.value) in r
    ensures forall k :: 0 <= k < |r| ==> exists i :: 0 <= i < |ls| && ls[i].url == Some(r[k].url) && ls[i].provider == r[k].provider
    ensures Subseq(r, MappedLinks(ls))
    ensures forall x: DownloadLink :: x.url != "" ==> multiset(r)[x] == multiset(MappedLinks(ls))[x]
  {
    var mapped := MappedLinks(ls);
    var r := Filter(mapped, HasUrl);
    FilterCounts(mapped, HasUrl);
    assert forall k :: 0 <= k < |ls| && Truthy(ls[k].url) ==> mapped[k] == DownloadLink(ls[k].provider, ls[k].url.value);
    r
  }

  function KuraDownload(g: RawKuraDownload): Download {
    Download(g.qualityGroup, KeptLinks(g.links))
  }

  /** Kuramanime download groups, one entry per group, in order. */
  function KuraDownloads(groups: seq<RawKuraDownload>): seq<Download> {
    seq(|groups|, i requires 0 <= i < |groups| => KuraDownload(groups[i]))
  }

  /** The push loop over Kuramanime download groups. */
  method CollectKuraDownloads(groups: seq<RawKuraDownload>) returns (r: seq<Download>)
    ensures r == KuraDownloads(groups)
  {
    r := [];
    var i := 0;
    while i < |groups|
      invariant 0 <= i <= |groups|
      invariant |r| == i
      invariant forall k :: 0 <= k < i ==> r[k] == KuraDownload(groups[k])
    {
      var group := groups[i];
      r := r + [KuraDownload(group)];
      i := i + 1;
    }
  }

  // =====================================================================
  // getEpisode: streams and navigation

  /** `streams.find(s => s.quality === "720") || streams[0]`, then its url,
      or '' when there is no stream. */
  function StreamUrl(streams: Option<seq<RawStream>>): (u: string)
    ensures streams.None? || streams.value == [] ==> u == ""
    ensures streams.Some? ==> forall i ::
      (0 <= i < |streams.value| && streams.value[i].quality == "720"
       && forall m :: 0 <= m < i ==> streams.value[m].quality != "720") ==> u == streams.value[i].url
    ensures streams.Some? && streams.value != [] && (forall k :: 0 <= k < |streams.value| ==> streams.value[k].quality != "720")
      ==> u == streams.value[0].url
  {
    if streams.None? then ""
    else
      var i := FindFirst(streams.value, (s: RawStream) => s.quality == "720");
      if i >= 0 then streams.value[i].url
      else if streams.value != [] then streams.value[0].url
      else ""
  }

  /** One "Resolution" group with an entry per stream, or undefined when
      there is no stream. */
  function KuraServer(streams: Option<seq<RawStream>>): (s: Option<Server>)
    ensures s.Some? <==> streams.Some? && |streams.value| > 0
    ensures s.Some? ==>
      && |s.value.qualities| == 1
      && s.value.qualities[0].title == "Resolution"
      && |s.value.qualities[0].serverList| == |streams.value|
      && forall i :: 0 <= i < |streams.value| ==>
           s.value.qualities[0].serverList[i] == ServerEntry(streams.value[i].quality + "p", streams.value[i].url, "")
  {
    if streams.Some? && |streams.value| > 0 then
      var ss := streams.value;
      Some(Server([ServerQuality("Resolution", seq(|ss|, i requires 0 <= i < |ss| => ServerEntry(ss[i].quality + "p", ss[i].url, "")))]))
    else None
  }

  /** A navigation value is usable when it is present and not 0 (falsy);
      the link's slug then decodes to that value as its episode. */
  function NavLink(token: string, nav: Option<nat>): (r: Option<EpisodeRef>)
    ensures r.Some? <==> nav.Some? && nav.value != 0
    ensures r.Some? ==>
      && r.value.href == ""
      && SplitEpisodeToken(r.value.slug).Some?
      && SplitEpisodeToken(r.value.slug).value.2 == NatToString(nav.value)
  {
    if nav.Some? && nav.value != 0 then Some(EpisodeRef(NeighbourToken(token, nav.value), "")) else None
  }

  function PrevOf(json: RawWatchJson): Option<nat> {
    if json.navigation.Some? then json.navigation.value.prev else None
  }

  function NextOf(json: RawWatchJson): Option<nat> {
    if json.navigation.Some? then json.navigation.value.next else None
  }

  /** A Kuramanime episode: the title or "Episode", the preferred stream,
      neighbours only for truthy navigation values, one server group, and
      the download groups (none when absent). */
  function KuraEpisodeData(token: string, json: RawWatchJson): (e: EpisodeDetail)
    ensures Truthy(json.title) ==> e.title == json.title.value
    ensures !Truthy(json.title) ==> e.title == "Episode"
    ensures e.streamUrl == StreamUrl(json.streams) && e.server == KuraServer(json.streams)
    ensures e.prevEpisode.Some? <==> PrevOf(json).Some? && PrevOf(json).value != 0
    ensures e.nextEpisode.Some? <==> NextOf(json).Some? && NextOf(json).value != 0
    ensures json.downloads.None? ==> e.downloadUrls == []
    ensures json.downloads.Some? ==> |e.downloadUrls| == |json.downloads.value|
  {
    EpisodeDetail(
      title := if Truthy(json.title) then json.title.value else "Episode",
      streamUrl := StreamUrl(json.streams),
      prevEpisode := NavLink(token, PrevOf(json)),
      nextEpisode := NavLink(token, NextOf(json)),
      server := KuraServer(json.streams),
      downloadUrls := if json.downloads.Some? then KuraDownloads(json.downloads.value) else [])
  }

  function SameDownloads(d: RawEpisode): seq<Download> {
    if d.downloadUrl.Some? && d.downloadUrl.value.formats.Some?
    then FlattenFormats(d.downloadUrl.value.formats.value)
    else []
  }

  /** A Samehadaku episode. Dereferencing a neighbour that the flags say
      exists but is missing throws, which ends in null. */
  function SameEpisodeData(status: string, d: RawEpisode): (r: Option<EpisodeResponse>)
    ensures r.None? <==> (d.hasPrevEpisode && d.prevEpisode.None?) || (d.hasNextEpisode && d.nextEpisode.None?)
    ensures r.Some? ==>
      var e := r.value.data;
      && r.value.status == status
      && e.title == d.title && e.streamUrl == d.defaultStreamingUrl && e.server == d.server
      && e.downloadUrls == SameDownloads(d)
      && (e.prevEpisode.Some? <==> d.hasPrevEpisode)
      && (e.nextEpisode.Some? <==> d.hasNextEpisode)
      && (e.prevEpisode.Some? ==> e.prevEpisode.value == EpisodeRef(d.prevEpisode.value.episodeId, d.prevEpisode.value.href))
      && (e.nextEpisode.Some? ==> e.nextEpisode.value == EpisodeRef(d.nextEpisode.value.episodeId, d.nextEpisode.value.href))
  {
    if (d.hasPrevEpisode && d.prevEpisode.None?) || (d.hasNextEpisode && d.nextEpisode.None?) then None
    else
      Some(EpisodeResponse(status, EpisodeDetail(
        title := d.title, streamUrl := d.defaultStreamingUrl,
        prevEpisode := if d.hasPrevEpisode then Some(EpisodeRef(d.prevEpisode.value.episodeId, d.prevEpisode.value.href)) else None,
        nextEpisode := if d.hasNextEpisode then Some(EpisodeRef(d.nextEpisode.value.episodeId, d.nextEpisode.value.href)) else None,
        server := d.server, downloadUrls := SameDownloads(d))))
  }

  /** Where an episode token is sent. */
  datatype EpisodeRoute = SameEpisode(slug: string) | KuraWatch(id: string, slug: string, episode: string) | BadEpisodeToken

  /** Unprefixed tokens go to Samehadaku as they are; prefixed ones with at
      least four '-'-separated parts to Kuramanime, with a dash-free id and
      episode from which the token is rebuilt; the rest are rejected. */
  function RouteEpisode(token: string): (r: EpisodeRoute)
    ensures r.SameEpisode? <==> !StartsWith(token, PREFIX)
    ensures r.SameEpisode? ==> r.slug == token
    ensures r.BadEpisodeToken? <==> StartsWith(token, PREFIX) && |Split(token, '-')| < 4
    ensures r.KuraWatch? ==>
      '-' !in r.id && '-' !in r.episode && token == PREFIX + r.id + "-" + r.slug + "-" + r.episode
  {
    if !StartsWith(token, PREFIX) then SameEpisode(token)
    else match SplitEpisodeToken(token)
      case Some((id, slug, ep)) => SplitEpisodeTokenSound(token); KuraWatch(id, slug, ep)
      case None => BadEpisodeToken
  }

  function EpisodeUrl(route: EpisodeRoute): string
    requires !route.BadEpisodeToken?
  {
    match route
    case SameEpisode(slug) => BASE_URL + "/episode/" + slug
    case KuraWatch(id, slug, ep) => KURA_URL + "/watch/" + id + "/" + slug + "/" + ep
  }

  /** What getEpisode returns for a token: null for a rejected token or a
      failed exchange, otherwise the routed provider's episode mapped into
      the canonical record. */
  function EpisodeOf(up: Upstream, token: string): (r: Option<EpisodeResponse>)
    ensures RouteEpisode(token).BadEpisodeToken? ==> r.None?
    ensures RouteEpisode(token).SameEpisode? ==>
      var f := up.episode(BASE_URL + "/episode/" + token);
      && (!(f.Ok? && f.body.data.Some?) ==> r.None?)
      && (f.Ok? && f.body.data.Some? ==> r == SameEpisodeData(f.body.status, f.body.data.value))
    ensures RouteEpisode(token).KuraWatch? ==>
      var f := up.kuraWatch(EpisodeUrl(RouteEpisode(token)));
      && (r.Some? <==> f.Ok?)
      && (r.Some? ==> r.value == EpisodeResponse(f.body.status, KuraEpisodeData(token, f.body)))
  {
    var route := RouteEpisode(token);
    match route
    case BadEpisodeToken => None
    case SameEpisode(_) =>
      (match up.episode(EpisodeUrl(route))
       case Ok(json) => if json.data.Some? then SameEpisodeData(json.status, json.data.value) else None
       case _ => None)
    case KuraWatch(_, _, _) =>
      (match up.kuraWatch(EpisodeUrl(route))
       case Ok(json) => Some(EpisodeResponse(json.status, KuraEpisodeData(token, json)))
       case _ => None)
  }

  /** getEpisode, with its routing and its download loops written as the
      source writes them. */
  method GetEpisode(up: Upstream, slug: string) returns (r: Option<EpisodeResponse>)
    ensures r == EpisodeOf(up, slug)
  {
    var url := BASE_URL + "/episode/" + slug;
    var isKuramanime := false;
    if StartsWith(slug, PREFIX) {
      isKuramanime := true;
      var parts := Split(slug, '-');
      if |parts| >= 4 {
        var id := parts[1];
        var episode := parts[|parts| - 1];
        var realSlug := Join(Slice(parts, 2, |parts| - 1), "-");
        url := KURA_URL + "/watch/" + id + "/" + realSlug + "/" + episode;
      } else {
        return None;
      }
    }
    if isKuramanime {
      var res := up.kuraWatch(url);
      if !res.Ok? {
        return None;
      }
      var kuraData := res.body;
      var downloadUrls := [];
      if kuraData.downloads.Some? {
        downloadUrls := CollectKuraDownloads(kuraData.downloads.value);
      }
      var detail := EpisodeDetail(
        title := if Truthy(kuraData.title) then kuraData.title.value else "Episode",
        streamUrl := StreamUrl(kuraData.streams),
        prevEpisode := NavLink(slug, PrevOf(kuraData)),
        nextEpisode := NavLink(slug, NextOf(kuraData)),
        server := KuraServer(kuraData.streams),
        downloadUrls := downloadUrls);
      r := Some(EpisodeResponse(kuraData.status, detail));
    } else {
      var res := up.episode(url);
      if !res.Ok? || res.body.data.None? {
        return None;
      }
      var d := res.body.data.value;
      var downloadUrls := [];
      if d.downloadUrl.Some? && d.downloadUrl.value.formats.Some? {
        downloadUrls := FlattenDownloads(d.downloadUrl.value.formats.value);
      }
      if (d.hasPrevEpisode && d.prevEpisode.None?) || (d.hasNextEpisode && d.nextEpisode.None?) {
        // reading episodeId of a missing neighbour throws: null
        return None;
      }
      var prev := if d.hasPrevEpisode then Some(EpisodeRef(d.prevEpisode.value.episodeId, d.prevEpisode.value.href)) else None;
      var next := if d.hasNextEpisode then Some(EpisodeRef(d.nextEpisode.value.episodeId, d.nextEpisode.value.href)) else None;
      r := Some(EpisodeResponse(res.body.status, EpisodeDetail(d.title, d.defaultStreamingUrl, prev, next, d.server, downloadUrls)));
    }
  }

  // =====================================================================
  // getOngoing

  function OngoingUrl(page: int): string {
    BASE_URL + "/ongoing?page=" + IntToString(page)
  }

  /** getOngoing's entries carry no source tag. */
  function OngoingItem(a: RawAnime): AnimeResult {
    AnimeResult(a.title, a.animeId, a.poster, a.status, a.score, a.kind, None, None, a.genreList, None)
  }

  /** Ongoing: Samehadaku's list (or []) with its pagination passed
      through unchanged; a failed request is null. */
  function GetOngoing(up: Upstream, page: int := 1): (r: Option<ListResponse>)
    ensures r.Some? <==> up.ongoing(OngoingUrl(page)).Ok?
    ensures r.Some? ==>
      var json := up.ongoing(OngoingUrl(page)).body;
      && r.value.status == json.status
      && r.value.pagination == json.pagination
      && (json.data.None? || json.data.value.animeList.None? ==> r.value.data == [])
      && (json.data.Some? && json.data.value.animeList.Some? ==>
            var list := json.data.value.animeList.value;
            |r.value.data| == |list| && forall i :: 0 <= i < |list| ==>
              && r.value.data[i].title == list[i].title
              && r.value.data[i].slug == list[i].animeId
              && r.value.data[i].poster == list[i].poster
              && r.value.data[i].status == list[i].status
              && r.value.data[i].score == list[i].score
              && r.value.data[i].kind == list[i].kind
              && r.value.data[i].episodes.None? && r.value.data[i].releasedOn.None?
              && r.value.data[i].genreList == list[i].genreList
              && r.value.data[i].source.None?)
  {
    match up.ongoing(OngoingUrl(page))
    case Ok(json) =>
      var list := if json.data.Some? && json.data.value.animeList.Some? then json.data.value.animeList.value else [];
      Some(ListResponse(json.status, seq(|list|, i requires 0 <= i < |list| => OngoingItem(list[i])), json.pagination))
    case _ => None
  }
}
