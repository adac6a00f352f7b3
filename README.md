# Bonkey-Stream catalogue core in Dafny

This project models three pieces of the Bonkey-Stream anime site:

- **Catalogue client** (`app/services/animeApi.ts`). It talks to two scraping back ends, Samehadaku and Kuramanime.
  - Search asks Samehadaku first. Only on page 1, and only when Samehadaku has no hits, it falls back to Kuramanime, whose hits come back as one final page.
  - A Kuramanime title is addressed by a composite token: `kura-<id>-<slug>` for an anime and `kura-<id>-<slug>-<episode>` for an episode.
  - A token without the `kura-` prefix goes to Samehadaku as it is.
  - Each provider's JSON is mapped into one canonical shape: list entries, details, episodes, downloads, stream servers, and previous and next episode links.
- **Local store** (`app/utils/storage.ts`). Watch history is deduplicated by episode slug, newest first, and capped at 50. Favourites are deduplicated by anime slug, newest first, and capped at 100. In-progress entries feed a "continue watching" list.
- **Recent searches** of the navigation bar's search overlay (`app/components/NavbarSearch.tsx`). The list is deduplicated case-insensitively, newest first, and capped at 10.

Modules:

- `Js` (`js.dfy`): the JavaScript built-ins the code relies on, with the edge cases the code reaches (case mapping is ASCII only, see Left out).
  - `split` on one character, `join`, and `slice` with negative and out-of-range bounds.
  - A missing array index printing as `undefined`, `trim`, `toLowerCase`, and numbers printed in template literals.
- `Lists` (`lists.dfy`): `filter`, `findIndex`, the subsequence order, and distinctness by a key.
- `KuraToken` (`kura_token.dfy`): the composite token, the regular expression `^kura-(\d+)-(.+)$` that reads it back, and the split/rejoin decoding of episode tokens.
- `AnimeApi` (`anime_api.dfy`): the six endpoints.
  - Each provider response is a value of a raw datatype.
  - The network is a record `Upstream` of total functions from URL to `Fetch` outcome: `Threw`, `NotOk` or `Ok(body)`.
  - `encodeURIComponent` is one more function of that record.
  - `getAnimeDetail` and `getEpisode` are methods that follow the source's routing and loops, each proved equal to a specification function.
- `AnimeApiLaws` (`anime_api_laws.dfy`): properties across functions.
  - The search fallback policy.
  - Routing of tokens.
  - The chain from a search hit to its detail, from the detail's episode list to episodes, and from an episode to its neighbours.
  - The order of flattened downloads.
- `Storage` (`storage.dfy`): the two stored lists as a class `LocalStore` with sequence fields.
  - `hasWindow` models `typeof window`.
  - Every write method is proved equal to a specification function of the old list.
  - Lemmas show each specification function keeps every key listed once.
- `NavbarSearch` (`navbar_search.dfy`): the recent-searches update as a function, and `handleSearch` as a method of a class `SearchPanel` holding the component state and the stored copy.

Behaviour worth knowing, as the code has it:

- **Kura token decoding.** The code tells the two token forms apart only by the endpoint that receives them. Nothing checks whether a last segment is numeric.
  - An episode token's id is the second `-` part and its episode is the last part. The slug is whatever lies between, so any native slug survives the round trip (`KuraToken.EpisodeTokenRoundTrip`).
  - An anime token handed to the episode endpoint is misread when its slug contains a dash (`KuraToken.AnimeTokenReadsAsEpisode`).
- **Search fallback and tokens.** Search results from the fallback carry the Kuramanime token, and getBatch sends any token, prefixed or not, to Samehadaku.
- **Regex failures.** A Kuramanime native slug that is empty or holds a line terminator fails the regular expression, so the detail of such a hit is null.
- **Falsy navigation.** A navigation value of 0 is falsy, so no previous or next link ever points to episode 0. Episode 0's own page can still link to its neighbours.
- **Recording error searches.** handleSearch records the query for every non-null search result. That includes the `status: "error"` result whose `data` is an empty array, because an empty array is truthy.

## Model

| member | source | states |
|---|---|---|
| Js.SliceBound | app/services/animeApi.ts:399 | `slice` bounds: a negative bound counts from the end, and every bound is clamped to [0, length] |
| Js.Slice | app/services/animeApi.ts:399 | `slice(start, end)` is the run from the normalised start, as long as the normalised bounds are apart, and empty when they cross |
| Js.At | app/services/animeApi.ts:235 | `parts[i]` is the element when i is in range, and prints as "undefined" otherwise |
| Js.Split | app/services/animeApi.ts:320 | `split('-')` always yields at least one part, and no part contains the separator |
| Js.JoinSplit | app/services/animeApi.ts:235 | joining the parts of `split(c)` with `c` gives the string back |
| Js.SplitJoin | app/services/animeApi.ts:324 | splitting a join of separator-free parts gives the parts back |
| Js.SplitConcat | app/services/animeApi.ts:320 | the separator between two strings separates their parts |
| Js.SplitWithoutSeparator | app/services/animeApi.ts:320 | a string without the separator is one part |
| Js.Join | app/services/animeApi.ts:235 | `join` of no parts is "" and of one part is that part |
| Js.JoinSnoc | app/services/animeApi.ts:323-324 | a join is the join of all but the last part, the separator, then the last part |
| Js.Trim | app/components/NavbarSearch.tsx:79 | `trim()` is the one contiguous middle of the input with only ECMAScript white space before and after it, and it neither begins nor ends with white space |
| Js.TrimStart | app/components/NavbarSearch.tsx:86 | only white space is removed from the front, and the rest is a suffix of the input |
| Js.TrimEnd | app/components/NavbarSearch.tsx:86 | only white space is removed from the back, and the rest is a prefix of the input |
| Js.ToLower | app/components/NavbarSearch.tsx:88 | `toLowerCase()` keeps the length and lower-cases each character independently |
| Js.LowerChar | app/services/animeApi.ts:231 | an upper-case ASCII letter maps to its own lower-case letter (code point plus 32), and everything else is unchanged |
| Js.NatToString | app/services/animeApi.ts:161 | `${id}` is a non-empty run of decimal digits without '-' and without a leading zero |
| Js.NatToStringRoundTrip | app/services/animeApi.ts:197 | the digits printed for a number denote that number |
| Js.SliceFromStart | app/utils/storage.ts:57 | `slice(0, n)` keeps the first n elements, or all of them when there are fewer |
| Lists.Filter | app/utils/storage.ts:49 | `filter` keeps only satisfying elements and every satisfying one, in their original order (a subsequence) |
| Lists.FilterCounts | app/utils/storage.ts:49 | `filter` keeps every copy of a satisfying element and no copy of any other |
| Lists.CappedFilter | app/utils/storage.ts:49-57 | `[x, ...s.filter(p)].slice(0, cap)` has x first, then exactly as many kept elements as fit, in order, and loses none below the cap |
| Lists.FindFirst | app/utils/storage.ts:73 | `findIndex` is -1 when no element satisfies the predicate, and otherwise the first position that does |
| Lists.FilterAll | app/components/NavbarSearch.tsx:88 | filtering with a predicate every element satisfies changes nothing |
| Lists.SubseqPrefix | app/utils/storage.ts:57 | cutting a subsequence with `slice(0, n)` keeps it a subsequence |
| Lists.SubseqMembers | app/utils/storage.ts:49 | an element of a subsequence is an element of the whole |
| Lists.SubseqRefl | app/utils/storage.ts:136 | a list is a subsequence of itself |
| Lists.SubseqKeepsDistinct | app/utils/storage.ts:49-57 | a subsequence of a list whose keys are distinct has distinct keys |
| Lists.ConsKeepsDistinct | app/utils/storage.ts:51-56 | prepending an element whose key is absent keeps the keys distinct |
| KuraToken.DigitRun | app/services/animeApi.ts:197 | the length of the leading run of digits that `\d+` consumes |
| KuraToken.DigitRunOf | app/services/animeApi.ts:197 | `\d+` stops exactly where the id's digits end |
| KuraToken.MatchAnimeToken | app/services/animeApi.ts:194-204 | a match yields a digit id and a non-empty slug without line terminators that rebuild the token; without the prefix there is no match |
| KuraToken.MatchAnimeTokenComplete | app/services/animeApi.ts:197-201 | every `kura-<digits>-<slug>` with a valid slug matches and yields exactly its two parts |
| KuraToken.AnimeToken | app/services/animeApi.ts:161 | the token carries the `kura-` prefix, and the regular expression reads back the printed id and the slug whenever the slug is capturable |
| KuraToken.AnimeTokenRoundTrip | app/services/animeApi.ts:161 | the token built for a Kuramanime hit matches back to the printed id, which denotes the hit's id, and to the exact native slug |
| KuraToken.SplitToken | app/services/animeApi.ts:235 | splitting `kura-<id>-<slug>` on '-' gives "kura", the id, then the slug's parts |
| KuraToken.EpisodeTokenExtends | app/services/animeApi.ts:233-237 | an episode-list slug is the anime token followed by "-" and the episode number |
| KuraToken.EpisodeToken | app/services/animeApi.ts:235 | an episode-list slug is prefixed and decodes to the anime token's second part, its remaining parts re-joined, and the episode, whatever the anime token |
| KuraToken.SplitEpisodeToken | app/services/animeApi.ts:320-330 | decoding fails exactly when there are fewer than four parts; id and episode never contain '-' |
| KuraToken.EpisodeTokenRoundTrip | app/services/animeApi.ts:320-326 | `kura-<id>-<slug>-<ep>` decodes to (id, slug, ep) for any slug, dashes included |
| KuraToken.SplitEpisodeTokenSound | app/services/animeApi.ts:320-326 | a prefixed token the decoder accepts is exactly `kura-<id>-<slug>-<episode>` of the parts it decodes to |
| KuraToken.EpisodeOfAnimeRoundTrip | app/services/animeApi.ts:235 | an episode-list slug decodes to the anime's id, its native slug and the episode |
| KuraToken.AnimeTokenReadsAsEpisode | app/services/animeApi.ts:320-326 | for every id and every slug `s-last` with a dash-free last part, the anime token decodes as an episode token to (id, s, last) |
| KuraToken.NeighbourToken | app/services/animeApi.ts:399 | a previous/next slug is prefixed and decodes to the current token's second part, its middle parts re-joined, and the navigation value |
| KuraToken.NeighbourTokenKeepsAnime | app/services/animeApi.ts:398-405 | a previous/next slug keeps the current token's id and slug and decodes to the navigation value as episode |
| AnimeApi.GetHome | app/services/animeApi.ts:95-121 | null exactly when the request fails; otherwise one Samehadaku entry per recent anime, in order, with slug equal to its animeId and title, poster, episodes, releasedOn, status, score, type and genreList copied |
| AnimeApi.SearchAnime | app/services/animeApi.ts:123-186 | a thrown primary request is null; Samehadaku hits come back with their own pagination, each with slug from animeId, title, poster, status, score, type and genreList copied and no episodes or releasedOn; without hits page 1 is the Kuramanime fallback and later pages the error result; any empty result is the error result |
| AnimeApi.KuraFallback | app/services/animeApi.ts:150-179 | a thrown request is null, non-2xx or no hits is the error result, and hits form one final page of Kuramanime entries with token slugs and title, image, status, rating and type copied |
| AnimeApi.RouteDetail | app/services/animeApi.ts:190-205 | unprefixed tokens go to Samehadaku as they are; prefixed ones go to Kuramanime with a digit id and a capturable slug that rebuild the token, or are rejected exactly when the regular expression fails |
| AnimeApi.DetailTitle | app/services/animeApi.ts:244 | the first truthy title among title, english, japanese and synonyms, else "Unknown Title"; never empty |
| AnimeApi.Synopsis | app/services/animeApi.ts:252 | no paragraphs gives "", a single paragraph is itself, and two or more are the first, "\n\n", then the join of the rest |
| AnimeApi.FirstBatch | app/services/animeApi.ts:264-268 | the first batch entry exactly when the list is non-empty |
| AnimeApi.SameEpisodeList | app/services/animeApi.ts:270-274 | one link per Samehadaku episode, in order, or [] when absent |
| AnimeApi.Info | app/services/animeApi.ts:223-229 | the data of the first details row with the given heading, or undefined when there is none |
| AnimeApi.KuraGenres | app/services/animeApi.ts:231 | one genre per comma-separated part of the "Genre:" row, title trimmed, id lower-cased; [] without the row |
| AnimeApi.KuraEpisodeList | app/services/animeApi.ts:233-237 | one link per episode number, titled "Episode n", in order; [] when absent |
| AnimeApi.AnimeDetailOf | app/services/animeApi.ts:188-281 | a rejected token is null; otherwise the routed provider's answer decides, null unless it is 2xx with a body, mapped with that provider's mapping, and the detail's slug is the token asked for |
| AnimeApi.GetAnimeDetail | app/services/animeApi.ts:188-281 | the routing and mapping as written equal the specification AnimeDetailOf |
| AnimeApi.GetBatch | app/services/animeApi.ts:283-292 | null exactly when the request fails; otherwise Samehadaku's body for the token, unchanged |
| AnimeApi.FlattenFormats | app/services/animeApi.ts:416-430 | one download entry per (format, quality) pair |
| AnimeApi.FlattenDownloads | app/services/animeApi.ts:416-430 | the nested push loops build exactly FlattenFormats of the formats |
| AnimeApi.KeptLinks | app/services/animeApi.ts:368 | only links with a non-empty url remain, in their order (a subsequence of the mapped links), each url-bearing link as often as it occurs |
| AnimeApi.CollectKuraDownloads | app/services/animeApi.ts:362-372 | the push loop over Kuramanime groups builds one entry per group, in order |
| AnimeApi.StreamUrl | app/services/animeApi.ts:376 | the url of the first 720p stream, else of the first stream, else "" |
| AnimeApi.KuraServer | app/services/animeApi.ts:379-389 | one "Resolution" group listing every stream as "<quality>p" with its url as id; undefined without streams |
| AnimeApi.NavLink | app/services/animeApi.ts:398-405 | a link exists exactly when the navigation value is present and not 0, and its slug decodes to that value as episode |
| AnimeApi.KuraEpisodeData | app/services/animeApi.ts:391-409 | the title or "Episode", the preferred stream and server, neighbours exactly for truthy navigation values, and one download entry per group |
| AnimeApi.SameEpisodeData | app/services/animeApi.ts:432-441 | null exactly when a flagged neighbour is missing; otherwise title, stream, server and flattened downloads, and a neighbour exactly when its flag is set, with its episodeId and href |
| AnimeApi.RouteEpisode | app/services/animeApi.ts:297-331 | unprefixed tokens go to Samehadaku as they are; prefixed ones with at least four parts go to Kuramanime with a dash-free id and episode that rebuild the token; shorter ones are rejected |
| AnimeApi.EpisodeOf | app/services/animeApi.ts:295-449 | a rejected token is null; otherwise the routed provider's answer decides, null unless it is 2xx (with data, for Samehadaku), mapped with that provider's mapping |
| AnimeApi.GetEpisode | app/services/animeApi.ts:295-449 | the routing and the download loops as written equal the specification EpisodeOf |
| AnimeApi.GetOngoing | app/services/animeApi.ts:452-476 | null exactly when the request fails; otherwise one untagged entry per ongoing anime, with slug from animeId and title, poster, status, score, type and genreList copied, and Samehadaku's pagination passed through |
| AnimeApiLaws.SearchIgnoresFallback | app/services/animeApi.ts:126-146 | with primary hits, a thrown primary request or a page other than 1, Kuramanime's answer has no influence |
| AnimeApiLaws.SearchFallback | app/services/animeApi.ts:148-181 | on page 1 without primary hits the result is Kuramanime's: a thrown fallback is null, no hits is the error result, and hits form one final Kuramanime page whose entries copy title, image, status, rating and type and whose slugs route back to the same id and native slug |
| AnimeApiLaws.KuraHitRoutesBack | app/services/animeApi.ts:161-201 | a Kuramanime hit's token is sent to Kuramanime's detail URL for its id and slug |
| AnimeApiLaws.DetailPassesNativeTokens | app/services/animeApi.ts:190-194 | an unprefixed token goes verbatim to Samehadaku, and Kuramanime does not matter |
| AnimeApiLaws.DetailRejectsMalformedTokens | app/services/animeApi.ts:197-204 | a prefixed token the regular expression rejects gives null whatever the network does |
| AnimeApiLaws.DetailOfAnimeToken | app/services/animeApi.ts:194-240 | a well-formed anime token's detail depends only on Kuramanime's answer for its id and slug |
| AnimeApiLaws.DetailKeepsToken | app/services/animeApi.ts:215-250 | a detail carries the token it was asked for as its slug |
| AnimeApiLaws.KuraEpisodeLinksRoute | app/services/animeApi.ts:233-326 | every episode link of a Kuramanime detail routes to the watch endpoint for the same id, slug and that episode |
| AnimeApiLaws.EpisodePassesNativeTokens | app/services/animeApi.ts:297-300 | an unprefixed episode token goes verbatim to Samehadaku |
| AnimeApiLaws.ShortEpisodeTokenIsNull | app/services/animeApi.ts:320-330 | a prefixed episode token with fewer than four parts gives null |
| AnimeApiLaws.KuraNeighboursChain | app/services/animeApi.ts:398-405 | previous/next links exist exactly when the navigation value is truthy, and route to the same anime at that episode |
| AnimeApiLaws.NeighbourRoutes | app/services/animeApi.ts:399-403 | a neighbour slug routes to the current anime at the navigation value |
| AnimeApiLaws.FlattenAt | app/services/animeApi.ts:416-430 | entry QualityCount(formats before i) + j is quality j of format i, labelled "<format> - <quality>" |
| AnimeApiLaws.KuraDownloadsShape | app/services/animeApi.ts:362-372 | one entry per group in order, each with its quality group and only links with a url |
| Storage.WithoutEpisode | app/utils/storage.ts:86-91 | no entry for the episode remains; every other entry does, in order, as many times as before |
| Storage.Watched | app/utils/storage.ts:47-58 | the stamped item first, then the old history without that episode cut to fit: exactly min(rest + 1, 50) entries, so nothing else is lost below the cap and exactly 49 old entries are kept above it |
| Storage.WatchedKeepsDistinct | app/utils/storage.ts:47-58 | adding keeps each episode listed once |
| Storage.WatchedTwice | app/utils/storage.ts:47-58 | watching the same episode again leaves one entry for it, first, carrying the later data |
| Storage.WithProgress | app/utils/storage.ts:72-80 | only the first entry for the episode changes, and only progress, currentTime, duration and watchedAt; with no entry, nothing changes |
| Storage.WithProgressKeepsDistinct | app/utils/storage.ts:72-80 | updating progress keeps each episode listed once, and then the first entry for it is the only one |
| Storage.WithoutEpisodeKeepsDistinct | app/utils/storage.ts:89-91 | removing keeps the remaining episodes listed once |
| Storage.ContinueWatching | app/utils/storage.ts:102-106 | the leading entries with progress below 90, in stored order, as many as limit allows |
| Storage.AddedFavorite | app/utils/storage.ts:125-137 | unchanged when the anime is already a favourite; otherwise the stamped item first, then the old list cut to fit: exactly min(old + 1, 100) entries; the anime is a favourite afterwards |
| Storage.AddFavoriteIdempotent | app/utils/storage.ts:127-129 | adding the same anime twice equals adding it once |
| Storage.AddedFavoriteKeepsDistinct | app/utils/storage.ts:125-137 | adding keeps each anime listed once |
| Storage.WithoutAnime | app/utils/storage.ts:146-148 | the anime is no longer a favourite; every other favourite remains, in order, as many times as before |
| Storage.WithoutAnimeKeepsDistinct | app/utils/storage.ts:146-148 | removing keeps the remaining favourites listed once |
| Storage.RemoveThenAdd | app/utils/storage.ts:122-152 | removing an anime and adding it again puts it first |
| Storage.LocalStore.constructor | app/utils/storage.ts:22-28 | a store starts from the two stored lists |
| Storage.LocalStore.GetWatchHistory | app/utils/storage.ts:31-42 | without a window the history reads as empty |
| Storage.LocalStore.GetFavorites | app/utils/storage.ts:109-120 | without a window the favourites read as empty |
| Storage.LocalStore.AddToWatchHistory | app/utils/storage.ts:44-62 | the history becomes Watched of the old one, or stays unchanged without a window; distinct episodes stay distinct |
| Storage.LocalStore.UpdateWatchProgress | app/utils/storage.ts:64-84 | the first matching entry is updated in place as WithProgress says, and nothing is written without a match or a window |
| Storage.LocalStore.RemoveFromWatchHistory | app/utils/storage.ts:86-95 | the history becomes WithoutEpisode of the old one, or stays unchanged without a window |
| Storage.LocalStore.ClearWatchHistory | app/utils/storage.ts:97-100 | the history becomes empty, or stays unchanged without a window |
| Storage.LocalStore.GetContinueWatching | app/utils/storage.ts:102-106 | ContinueWatching of what getWatchHistory reads, with limit 10 by default; empty without a window |
| Storage.LocalStore.AddToFavorites | app/utils/storage.ts:122-141 | the favourites become AddedFavorite of the old list, and the anime is a favourite afterwards |
| Storage.LocalStore.RemoveFromFavorites | app/utils/storage.ts:143-152 | the favourites become WithoutAnime of the old list, and the anime is no longer a favourite |
| Storage.LocalStore.IsFavorite | app/utils/storage.ts:154-157 | true exactly when a window exists and some stored favourite has the anime's slug |
| NavbarSearch.WithRecent | app/components/NavbarSearch.tsx:86-89 | the trimmed query first, then the previous list without its case variants cut to fit: exactly min(rest + 1, 10) entries, so nothing else is lost below the cap |
| NavbarSearch.WithRecentKeepsDistinct | app/components/NavbarSearch.tsx:88-89 | recording keeps the list free of case-insensitive duplicates |
| NavbarSearch.WithRecentIdempotent | app/components/NavbarSearch.tsx:88-89 | searching for the same term twice equals searching once |
| NavbarSearch.WithRecentReplacesVariant | app/components/NavbarSearch.tsx:88-89 | searching for a case variant of a listed term drops the old spelling |
| NavbarSearch.SearchPanel.constructor | app/components/NavbarSearch.tsx:16-23 | the panel starts with no results, not loading, and the stored list (when a window exists) as recent searches |
| NavbarSearch.SearchPanel.RecordSearch | app/components/NavbarSearch.tsx:87-94 | the state becomes WithRecent of the previous list, its head is the query, it has at most 10 entries, localStorage holds the same list when a window exists, and case-insensitive distinctness is kept |
| NavbarSearch.SearchPanel.ShowResult | app/components/NavbarSearch.tsx:83-97 | a non-null result becomes the shown results and its trimmed query is recorded; a null result empties the results and leaves the recent searches and localStorage unchanged |
| NavbarSearch.SearchPanel.HandleSearch | app/components/NavbarSearch.tsx:78-104 | a blank query changes nothing; otherwise a non-null result replaces the results and records the trimmed query in the state and in localStorage, a null result empties the results, and loading ends false |

## Left out

- HTTP and logging: `fetch`, status codes, `res.json()`, Next.js `revalidate` options and `console` logging. A request is one of three outcomes: thrown, not 2xx, or a parsed body.
- `encodeURIComponent` is an uninterpreted function of the `Upstream` record, not its percent-encoding.
- Missing JSON fields:
  - The fields the code reads through `?.` or tests for truthiness are optional in the raw datatypes.
  - The other fields are present. A missing nested array such as `group.links` or `q.urls`, which makes the source throw and return null, is not modelled.
- JSON numbers:
  - Kuramanime ids, episode numbers and navigation values are `nat`, printed as decimal digits.
  - Page numbers are `int`.
  - Progress, times and durations are `real`.
  - Floating point, and non-integer ids or episodes, are not modelled.
- localStorage and JSON (de)serialisation: the stored lists are sequence fields. A corrupt stored value, which the source reads as an empty list, is not modelled.
- `Date.now()` is the `now` parameter.
- React state scheduling, effects, keyboard shortcuts and route changes in the search overlay are not modelled.
  - The constructor stands in for the effect that loads the stored recent searches.
  - The `searchQuery = query` default parameter is not modelled: the query is always passed.
- Every page and presentational component, the loading screen's timers and random progress, the type declarations and the Next.js configuration are not part of this model.
- Js.ToLower: lower-cases ASCII letters only. JavaScript's full Unicode case mapping is not modelled, so case-insensitive equality of recent searches is weaker than the source's for non-ASCII letters.
