/** The browser-side store of watch history and favourites. Each write
    reads the stored list, rebuilds it and stores it again; the store is
    modelled as two sequence fields, one per storage key. Without a window
    (server rendering) every read is empty and every write does nothing. */
module Storage {
  import opened Js
  import opened Lists

  const MAX_HISTORY_ITEMS := 50
  const MAX_FAVORITES := 100

  /** An episode as the player reports it, before it is stamped. */
  datatype WatchInput = WatchInput(
    animeSlug: string, animeTitle: string, animePoster: string,
    episodeSlug: string, episodeTitle: string,
    progress: real, duration: real, currentTime: real)

  datatype WatchHistoryItem = WatchHistoryItem(
    animeSlug: string, animeTitle: string, animePoster: string,
    episodeSlug: string, episodeTitle: string,
    watchedAt: int, progress: real, duration: real, currentTime: real)

  datatype FavoriteInput = FavoriteInput(animeSlug: string, animeTitle: string, animePoster: string)

  datatype FavoriteItem = FavoriteItem(animeSlug: string, animeTitle: string, animePoster: string, addedAt: int)

  // ---------------------------------------------------------------------
  // Keys

  function EpisodeKey(h: WatchHistoryItem): string {
    h.episodeSlug
  }

  function AnimeKey(f: FavoriteItem): string {
    f.animeSlug
  }

  function OtherEpisode(episodeSlug: string): WatchHistoryItem -> bool {
    (h: WatchHistoryItem) => h.episodeSlug != episodeSlug
  }

  function OtherAnime(animeSlug: string): FavoriteItem -> bool {
    (f: FavoriteItem) => f.animeSlug != animeSlug
  }

  /** An entry still in progress: below 90%. */
  predicate Unfinished(h: WatchHistoryItem) {
    h.progress < 90.0
  }

  // ---------------------------------------------------------------------
  // Watch history

  function Stamp(item: WatchInput, now: int): WatchHistoryItem {
    WatchHistoryItem(item.animeSlug, item.animeTitle, item.animePoster,
                     item.episodeSlug, item.episodeTitle,
                     now, item.progress, item.duration, item.currentTime)
  }

  /** The history without any entry for the episode; every other entry
      stays, in order, as often as it was there. */
  function WithoutEpisode(h: seq<WatchHistoryItem>, episodeSlug: string): (r: seq<WatchHistoryItem>)
    ensures Subseq(r, h)
    ensures forall k :: 0 <= k < |r| ==> r[k].episodeSlug != episodeSlug
    ensures forall k :: 0 <= k < |h| && h[k].episodeSlug != episodeSlug ==> h[k] in r
    ensures forall x: WatchHistoryItem :: multiset(r)[x] == if x.episodeSlug != episodeSlug then multiset(h)[x] else 0
  {
    FilterCounts(h, OtherEpisode(episodeSlug));
    Filter(h, OtherEpisode(episodeSlug))
  }

  /** The history after watching an episode at time now: the stamped item
      first, no other entry for that episode, the rest in their previous
      order, at most MAX_HISTORY_ITEMS entries. */
  function Watched(h: seq<WatchHistoryItem>, item: WatchInput, now: int): (r: seq<WatchHistoryItem>)
    ensures 1 <= |r| <= MAX_HISTORY_ITEMS
    ensures r[0] == Stamp(item, now)
    ensures forall k :: 1 <= k < |r| ==> r[k].episodeSlug != item.episodeSlug
    ensures Subseq(r[1..], h)
    ensures |r| == if |WithoutEpisode(h, item.episodeSlug)| < MAX_HISTORY_ITEMS
                   then |WithoutEpisode(h, item.episodeSlug)| + 1 else MAX_HISTORY_ITEMS
    ensures r[1..] == WithoutEpisode(h, item.episodeSlug)[..|r| - 1]
    ensures |WithoutEpisode(h, item.episodeSlug)| < MAX_HISTORY_ITEMS ==>
      forall k :: 0 <= k < |h| && h[k].episodeSlug != item.episodeSlug ==> h[k] in r
  {
    CappedFilter(Stamp(item, now), h, OtherEpisode(item.episodeSlug), MAX_HISTORY_ITEMS);
    Slice([Stamp(item, now)] + WithoutEpisode(h, item.episodeSlug), 0, MAX_HISTORY_ITEMS)
  }

  /** Watching keeps the invariant that each episode is listed once. */
  lemma WatchedKeepsDistinct(h: seq<WatchHistoryItem>, item: WatchInput, now: int)
    requires DistinctBy(h, EpisodeKey)
    ensures DistinctBy(Watched(h, item, now), EpisodeKey)
  {
    var r := Watched(h, item, now);
    SubseqKeepsDistinct(r[1..], h, EpisodeKey);
    ConsKeepsDistinct(r[0], r[1..], EpisodeKey);
    assert r == [r[0]] + r[1..];
  }

  /** Watching the same episode twice leaves the first entry with the
      later stamp and data. */
  lemma WatchedTwice(h: seq<WatchHistoryItem>, a: WatchInput, b: WatchInput, t1: int, t2: int)
    requires a.episodeSlug == b.episodeSlug
    ensures var r := Watched(Watched(h, a, t1), b, t2);
      r[0] == Stamp(b, t2) && forall k :: 1 <= k < |r| ==> r[k].episodeSlug != a.episodeSlug
  {
  }

  /** i is the position of the first entry for the episode. */
  predicate IsFirstMatch(h: seq<WatchHistoryItem>, episodeSlug: string, i: int) {
    0 <= i < |h| && h[i].episodeSlug == episodeSlug
    && forall m :: 0 <= m < i ==> h[m].episodeSlug != episodeSlug
  }

  function Progressed(e: WatchHistoryItem, progress: real, currentTime: real, duration: real, now: int): WatchHistoryItem {
    e.(progress := progress, currentTime := currentTime, duration := duration, watchedAt := now)
  }

  /** The history after a progress report: only the first entry for the
      episode changes, and only in progress, current time, duration and
      stamp; with no entry for the episode nothing changes. */
  function WithProgress(h: seq<WatchHistoryItem>, episodeSlug: string,
                        progress: real, currentTime: real, duration: real, now: int): (r: seq<WatchHistoryItem>)
    ensures |r| == |h|
    ensures forall i :: IsFirstMatch(h, episodeSlug, i) ==>
      r == h[i := Progressed(h[i], progress, currentTime, duration, now)]
    ensures (forall k :: 0 <= k < |h| ==> h[k].episodeSlug != episodeSlug) ==> r == h
    ensures forall k :: 0 <= k < |h| ==>
      && r[k].episodeSlug == h[k].episodeSlug
      && r[k].animeSlug == h[k].animeSlug && r[k].animeTitle == h[k].animeTitle
      && r[k].animePoster == h[k].animePoster && r[k].episodeTitle == h[k].episodeTitle
  {
    var i := FindFirst(h, (e: WatchHistoryItem) => e.episodeSlug == episodeSlug);
    if i < 0 then h else h[i := Progressed(h[i], progress, currentTime, duration, now)]
  }

  /** A progress report keeps each episode listed once, and with each
      episode listed once the first entry is the only one. */
  lemma WithProgressKeepsDistinct(h: seq<WatchHistoryItem>, episodeSlug: string,
                                  progress: real, currentTime: real, duration: real, now: int)
    requires DistinctBy(h, EpisodeKey)
    ensures DistinctBy(WithProgress(h, episodeSlug, progress, currentTime, duration, now), EpisodeKey)
    ensures forall i :: 0 <= i < |h| && h[i].episodeSlug == episodeSlug ==> IsFirstMatch(h, episodeSlug, i)
  {
    var r := WithProgress(h, episodeSlug, progress, currentTime, duration, now);
    forall i, j | 0 <= i < j < |r| ensures EpisodeKey(r[i]) != EpisodeKey(r[j]) {
      assert EpisodeKey(h[i]) != EpisodeKey(h[j]);
    }
    forall i | 0 <= i < |h| && h[i].episodeSlug == episodeSlug ensures IsFirstMatch(h, episodeSlug, i) {
      forall m | 0 <= m < i ensures h[m].episodeSlug != episodeSlug {
        assert EpisodeKey(h[m]) != EpisodeKey(h[i]);
      }
    }
  }

  /** Removing an episode keeps each remaining episode listed once. */
  lemma WithoutEpisodeKeepsDistinct(h: seq<WatchHistoryItem>, episodeSlug: string)
    requires DistinctBy(h, EpisodeKey)
    ensures DistinctBy(WithoutEpisode(h, episodeSlug), EpisodeKey)
  {
    SubseqKeepsDistinct(WithoutEpisode(h, episodeSlug), h, EpisodeKey);
  }

  /** The entries still in progress (below 90%), in stored order, cut with
      `slice(0, limit)`. */
  function ContinueWatching(h: seq<WatchHistoryItem>, limit: int): (r: seq<WatchHistoryItem>)
    ensures Subseq(r, h)
    ensures forall k :: 0 <= k < |r| ==> r[k].progress < 90.0
    ensures |r| <= |Filter(h, Unfinished)| && r == Filter(h, Unfinished)[..|r|]
    ensures limit >= 0 ==> |r| == if limit < |Filter(h, Unfinished)| then limit else |Filter(h, Unfinished)|
  {
    var f := Filter(h, Unfinished);
    var r := Slice(f, 0, limit);
    assert r == f[..|r|];
    SubseqPrefix(f, h, |r|);
    r
  }

  // ---------------------------------------------------------------------
  // Favourites

  /** `favorites.some((f) => f.animeSlug === animeSlug)`. */
  predicate HasAnime(f: seq<FavoriteItem>, animeSlug: string) {
    exists k :: 0 <= k < |f| && f[k].animeSlug == animeSlug
  }

  function StampFavorite(item: FavoriteInput, now: int): FavoriteItem {
    FavoriteItem(item.animeSlug, item.animeTitle, item.animePoster, now)
  }

  /** The favourites after adding an anime: unchanged when it is already
      there, otherwise the stamped item first and the previous list after
      it, cut at MAX_FAVORITES. */
  function AddedFavorite(f: seq<FavoriteItem>, item: FavoriteInput, now: int): (r: seq<FavoriteItem>)
    ensures HasAnime(f, item.animeSlug) ==> r == f
    ensures !HasAnime(f, item.animeSlug) ==>
      && 1 <= |r| <= MAX_FAVORITES && |r| <= |f| + 1
      && r[0] == StampFavorite(item, now)
      && r[1..] == f[..|r| - 1]
      && |r| == (if |f| < MAX_FAVORITES then |f| + 1 else MAX_FAVORITES)
    ensures HasAnime(r, item.animeSlug)
  {
    if HasAnime(f, item.animeSlug) then f
    else
      var r := Slice([StampFavorite(item, now)] + f, 0, MAX_FAVORITES);
      CappedCons(StampFavorite(item, now), f, MAX_FAVORITES);
      assert r[0].animeSlug == item.animeSlug;
      r
  }

  /** Adding is idempotent: a second add of the same anime, whatever its
      other fields and time, changes nothing. */
  lemma AddFavoriteIdempotent(f: seq<FavoriteItem>, a: FavoriteInput, b: FavoriteInput, t1: int, t2: int)
    requires a.animeSlug == b.animeSlug
    ensures AddedFavorite(AddedFavorite(f, a, t1), b, t2) == AddedFavorite(f, a, t1)
  {
  }

  /** Adding keeps each anime listed once. */
  lemma AddedFavoriteKeepsDistinct(f: seq<FavoriteItem>, item: FavoriteInput, now: int)
    requires DistinctBy(f, AnimeKey)
    ensures DistinctBy(AddedFavorite(f, item, now), AnimeKey)
  {
    if !HasAnime(f, item.animeSlug) {
      var r := AddedFavorite(f, item, now);
      var tail := f[..|r| - 1];
      SubseqRefl(f);
      SubseqPrefix(f, f, |r| - 1);
      SubseqKeepsDistinct(tail, f, AnimeKey);
      forall k | 0 <= k < |tail| ensures AnimeKey(tail[k]) != AnimeKey(r[0]) {
        assert tail[k] == f[k];
      }
      ConsKeepsDistinct(r[0], tail, AnimeKey);
      assert r == [r[0]] + tail;
    }
  }

  /** The favourites without the anime: it is no longer a favourite, and
      every other favourite stays, in order, as often as it was there. */
  function WithoutAnime(f: seq<FavoriteItem>, animeSlug: string): (r: seq<FavoriteItem>)
    ensures !HasAnime(r, animeSlug)
    ensures Subseq(r, f)
    ensures forall k :: 0 <= k < |f| && f[k].animeSlug != animeSlug ==> f[k] in r
    ensures forall x: FavoriteItem :: multiset(r)[x] == if x.animeSlug != animeSlug then multiset(f)[x] else 0
  {
    FilterCounts(f, OtherAnime(animeSlug));
    Filter(f, OtherAnime(animeSlug))
  }

  /** Removing keeps each remaining anime listed once. */
  lemma WithoutAnimeKeepsDistinct(f: seq<FavoriteItem>, animeSlug: string)
    requires DistinctBy(f, AnimeKey)
    ensures DistinctBy(WithoutAnime(f, animeSlug), AnimeKey)
  {
    SubseqKeepsDistinct(WithoutAnime(f, animeSlug), f, AnimeKey);
  }

  /** Removing and then adding an anime puts it first whatever the list. */
  lemma RemoveThenAdd(f: seq<FavoriteItem>, item: FavoriteInput, now: int)
    ensures var r := AddedFavorite(WithoutAnime(f, item.animeSlug), item, now);
      r[0] == StampFavorite(item, now)
  {
  }

  // ---------------------------------------------------------------------
  // The store

  /** The two stored lists and whether a window (and so localStorage)
      exists. */
  class LocalStore {
    const hasWindow: bool
    var history: seq<WatchHistoryItem>
    var favorites: seq<FavoriteItem>

    constructor (hasWindow: bool, history: seq<WatchHistoryItem>, favorites: seq<FavoriteItem>)
      ensures this.hasWindow == hasWindow && this.history == history && this.favorites == favorites
    {
      this.hasWindow := hasWindow;
      this.history := history;
      this.favorites := favorites;
    }

    /** The stored history; empty without a window. */
    function GetWatchHistory(): (r: seq<WatchHistoryItem>)
      reads this
      ensures !hasWindow ==> r == []
      ensures hasWindow ==> r == history
    {
      if hasWindow then history else []
    }

    /** The stored favourites; empty without a window. */
    function GetFavorites(): (r: seq<FavoriteItem>)
      reads this
      ensures !hasWindow ==> r == []
      ensures hasWindow ==> r == favorites
    {
      if hasWindow then favorites else []
    }

    method AddToWatchHistory(item: WatchInput, now: int)
      modifies this`history
      ensures history == if hasWindow then Watched(old(history), item, now) else old(history)
      ensures hasWindow ==> GetWatchHistory()[0] == Stamp(item, now)
      ensures old(DistinctBy(history, EpisodeKey)) ==> DistinctBy(history, EpisodeKey)
    {
      if !hasWindow {
        return;
      }
      if DistinctBy(history, EpisodeKey) {
        WatchedKeepsDistinct(history, item, now);
      }
      history := Watched(history, item, now);
    }

    /** Updates the first entry for the episode in place; with no such
        entry the store is not written. */
    method UpdateWatchProgress(episodeSlug: string, progress: real, currentTime: real, duration: real, now: int)
      modifies this`history
      ensures history == if hasWindow then WithProgress(old(history), episodeSlug, progress, currentTime, duration, now)
                         else old(history)
      ensures old(DistinctBy(history, EpisodeKey)) ==> DistinctBy(history, EpisodeKey)
    {
      if !hasWindow {
        return;
      }
      var index := FindFirst(history, (h: WatchHistoryItem) => h.episodeSlug == episodeSlug);
      if index != -1 {
        assert IsFirstMatch(history, episodeSlug, index);
        if DistinctBy(history, EpisodeKey) {
          WithProgressKeepsDistinct(history, episodeSlug, progress, currentTime, duration, now);
        }
        history := history[index := Progressed(history[index], progress, currentTime, duration, now)];
      }
    }

    method RemoveFromWatchHistory(episodeSlug: string)
      modifies this`history
      ensures history == if hasWindow then WithoutEpisode(old(history), episodeSlug) else old(history)
      ensures old(DistinctBy(history, EpisodeKey)) ==> DistinctBy(history, EpisodeKey)
    {
      if !hasWindow {
        return;
      }
      if DistinctBy(history, EpisodeKey) {
        WithoutEpisodeKeepsDistinct(history, episodeSlug);
      }
      history := WithoutEpisode(history, episodeSlug);
    }

    method ClearWatchHistory()
      modifies this`history
      ensures history == if hasWindow then [] else old(history)
    {
      if !hasWindow {
        return;
      }
      history := [];
    }

    /** Up to limit entries still in progress, in stored order. */
    function GetContinueWatching(limit: int := 10): (r: seq<WatchHistoryItem>)
      reads this
      ensures r == ContinueWatching(GetWatchHistory(), limit)
      ensures !hasWindow ==> r == []
    {
      ContinueWatching(GetWatchHistory(), limit)
    }

    method AddToFavorites(item: FavoriteInput, now: int)
      modifies this`favorites
      ensures favorites == if hasWindow then AddedFavorite(old(favorites), item, now) else old(favorites)
      ensures hasWindow ==> IsFavorite(item.animeSlug)
      ensures old(DistinctBy(favorites, AnimeKey)) ==> DistinctBy(favorites, AnimeKey)
    {
      if !hasWindow {
        return;
      }
      if HasAnime(favorites, item.animeSlug) {
        return;
      }
      if DistinctBy(favorites, AnimeKey) {
        AddedFavoriteKeepsDistinct(favorites, item, now);
      }
      favorites := AddedFavorite(favorites, item, now);
    }

    method RemoveFromFavorites(animeSlug: string)
      modifies this`favorites
      ensures favorites == if hasWindow then WithoutAnime(old(favorites), animeSlug) else old(favorites)
      ensures !IsFavorite(animeSlug)
      ensures old(DistinctBy(favorites, AnimeKey)) ==> DistinctBy(favorites, AnimeKey)
    {
      if !hasWindow {
        return;
      }
      if DistinctBy(favorites, AnimeKey) {
        WithoutAnimeKeepsDistinct(favorites, animeSlug);
      }
      favorites := WithoutAnime(favorites, animeSlug);
    }

    /** Whether some stored favourite is the anime; never without a
        window. */
    function IsFavorite(animeSlug: string): (b: bool)
      reads this
      ensures b <==> hasWindow && exists k :: 0 <= k < |favorites| && favorites[k].animeSlug == animeSlug
    {
      HasAnime(GetFavorites(), animeSlug)
    }
  }
}
