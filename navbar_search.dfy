/** The search overlay of the navigation bar: running a search and keeping
    the list of recent searches, most recent first, without
    case-insensitive duplicates and at most MAX_RECENT_SEARCHES long. */
module NavbarSearch {
  import opened Js
  import opened Lists
  import opened AnimeApi

  const MAX_RECENT_SEARCHES := 10

  /** Compares two terms the way the list does: after lower-casing. */
  function Folded(term: string): string {
    ToLower(term)
  }

  function OtherTerm(trimmed: string): string -> bool {
    (item: string) => Folded(item) != Folded(trimmed)
  }

  /** The recent searches after searching for trimmed: it comes first,
      every earlier entry equal to it up to letter case is gone, the others
      keep their order, and the list is cut at MAX_RECENT_SEARCHES. */
  function WithRecent(prev: seq<string>, trimmed: string): (r: seq<string>)
    ensures 1 <= |r| <= MAX_RECENT_SEARCHES
    ensures r[0] == trimmed
    ensures forall k :: 1 <= k < |r| ==> Folded(r[k]) != Folded(trimmed)
    ensures Subseq(r[1..], prev)
    ensures |r| == if |Filter(prev, OtherTerm(trimmed))| < MAX_RECENT_SEARCHES
                   then |Filter(prev, OtherTerm(trimmed))| + 1 else MAX_RECENT_SEARCHES
    ensures r[1..] == Filter(prev, OtherTerm(trimmed))[..|r| - 1]
    ensures |Filter(prev, OtherTerm(trimmed))| < MAX_RECENT_SEARCHES ==>
      forall k :: 0 <= k < |prev| && Folded(prev[k]) != Folded(trimmed) ==> prev[k] in r
  {
    CappedFilter(trimmed, prev, OtherTerm(trimmed), MAX_RECENT_SEARCHES);
    Slice([trimmed] + Filter(prev, OtherTerm(trimmed)), 0, MAX_RECENT_SEARCHES)
  }

  /** Recording a search keeps the list free of case-insensitive
      duplicates. */
  lemma WithRecentKeepsDistinct(prev: seq<string>, trimmed: string)
    requires DistinctBy(prev, Folded)
    ensures DistinctBy(WithRecent(prev, trimmed), Folded)
  {
    var r := WithRecent(prev, trimmed);
    SubseqKeepsDistinct(r[1..], prev, Folded);
    ConsKeepsDistinct(r[0], r[1..], Folded);
    assert r == [r[0]] + r[1..];
  }

  /** Searching for the same term again changes nothing. */
  lemma WithRecentIdempotent(prev: seq<string>, trimmed: string)
    ensures WithRecent(WithRecent(prev, trimmed), trimmed) == WithRecent(prev, trimmed)
  {
    var r := WithRecent(prev, trimmed);
    var t := r[1..];
    assert r == [trimmed] + t;
    assert !OtherTerm(trimmed)(r[0]);
    assert Filter(r, OtherTerm(trimmed)) == Filter(t, OtherTerm(trimmed));
    FilterAll(t, OtherTerm(trimmed));
  }

  /** Searching for a case variant of a listed term replaces that term by
      the new spelling at the front. */
  lemma WithRecentReplacesVariant(prev: seq<string>, trimmed: string, i: nat)
    requires i < |prev| && Folded(prev[i]) == Folded(trimmed) && prev[i] != trimmed
    ensures forall k :: 0 <= k < |WithRecent(prev, trimmed)| ==> WithRecent(prev, trimmed)[k] != prev[i]
  {
  }

  /** The component state that a search touches, and the copy of the
      recent searches kept in localStorage. */
  class SearchPanel {
    const hasWindow: bool
    var results: seq<AnimeResult>
    var loading: bool
    var recentSearches: seq<string>
    var persisted: seq<string>

    constructor (hasWindow: bool, stored: seq<string>)
      ensures this.hasWindow == hasWindow && persisted == stored
      ensures results == [] && !loading
      ensures recentSearches == if hasWindow then stored else []
    {
      this.hasWindow := hasWindow;
      results := [];
      loading := false;
      recentSearches := if hasWindow then stored else [];
      persisted := stored;
    }

    /** The state updater: records the trimmed query and, when a window
        exists, stores the new list. */
    method RecordSearch(trimmedQuery: string)
      modifies this`recentSearches, this`persisted
      ensures recentSearches == WithRecent(old(recentSearches), trimmedQuery)
      ensures persisted == if hasWindow then recentSearches else old(persisted)
      ensures recentSearches[0] == trimmedQuery && |recentSearches| <= MAX_RECENT_SEARCHES
      ensures old(DistinctBy(recentSearches, Folded)) ==> DistinctBy(recentSearches, Folded)
    {
      if DistinctBy(recentSearches, Folded) {
        WithRecentKeepsDistinct(recentSearches, trimmedQuery);
      }
      var updated := WithRecent(recentSearches, trimmedQuery);
      if hasWindow {
        persisted := updated;
      }
      recentSearches := updated;
    }

    /** A query that is blank after trimming does nothing. Otherwise the
        untrimmed query is searched on the first page; a non-null result
        replaces the results and records the trimmed query, in the state
        and in localStorage alike; a null result empties the results and
        keeps the recent searches. Loading ends cleared. */
    method HandleSearch(up: Upstream, searchQuery: string)
      modifies this`results, this`loading, this`recentSearches, this`persisted
      ensures Trim(searchQuery) == "" ==>
        && results == old(results) && loading == old(loading)
        && recentSearches == old(recentSearches) && persisted == old(persisted)
      ensures Trim(searchQuery) != "" ==>
        var res := SearchAnime(up, searchQuery, 1);
        && !loading
        && (res.Some? ==>
              && results == res.value.data
              && recentSearches == WithRecent(old(recentSearches), Trim(searchQuery))
              && persisted == if hasWindow then recentSearches else old(persisted))
        && (res.None? ==>
              && results == []
              && recentSearches == old(recentSearches) && persisted == old(persisted))
      ensures old(DistinctBy(recentSearches, Folded)) ==> DistinctBy(recentSearches, Folded)
    {
      if Trim(searchQuery) == "" {
        return;
      }
      loading := true;
      var res := SearchAnime(up, searchQuery);
      ShowResult(res, Trim(searchQuery));
      loading := false;
    }

    /** What a finished search does to the state: a non-null result is
        shown and its query recorded; a null result clears the results. */
    method ShowResult(res: Option<ListResponse>, trimmedQuery: string)
      modifies this`results, this`recentSearches, this`persisted
      ensures res.Some? ==>
        && results == res.value.data
        && recentSearches == WithRecent(old(recentSearches), trimmedQuery)
        && persisted == if hasWindow then recentSearches else old(persisted)
      ensures res.None? ==>
        && results == []
        && recentSearches == old(recentSearches) && persisted == old(persisted)
      ensures old(DistinctBy(recentSearches, Folded)) ==> DistinctBy(recentSearches, Folded)
    {
      if res.Some? {
        results := res.value.data;
        RecordSearch(trimmedQuery);
      } else {
        results := [];
      }
    }
  }
}
