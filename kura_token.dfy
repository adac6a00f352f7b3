/** The composite identity the client gives Kuramanime titles so that one
    string addresses them: `kura-<id>-<slug>` for an anime and
    `kura-<id>-<slug>-<episode>` for an episode. Samehadaku identifiers are
    used as they are and never carry the prefix. The anime form is read
    back by the regular expression `^kura-(\d+)-(.+)$`; the episode form by
    splitting on '-' and re-joining the middle parts. */
module KuraToken {
  import opened Js

  const PREFIX := "kura-"

  /** The code points JavaScript's `.` refuses to match. */
  predicate IsLineTerminator(c: char) {
    c == '\n' || c == '\r' || c == '\U{2028}' || c == '\U{2029}'
  }

  /** What `\d+` captures. */
  predicate ValidId(d: string) {
    |d| > 0 && AllDigits(d)
  }

  /** What `(.+)$` captures: one or more characters, none a line terminator. */
  predicate ValidNativeSlug(s: string) {
    |s| > 0 && forall k :: 0 <= k < |s| ==> !IsLineTerminator(s[k])
  }

  /** Length of the longest run of decimal digits at the start of s. */
  function DigitRun(s: string): (n: nat)
    ensures n <= |s|
    ensures forall k :: 0 <= k < n ==> IsDigit(s[k])
    ensures n < |s| ==> !IsDigit(s[n])
    decreases |s|
  {
    if |s| == 0 || !IsDigit(s[0]) then 0 else 1 + DigitRun(s[1..])
  }

  /** The digit run of d followed by a non-digit is all of d. */
  lemma {:induction false} DigitRunOf(d: string, rest: string)
    requires AllDigits(d)
    requires rest != [] && !IsDigit(rest[0])
    ensures DigitRun(d + rest) == |d|
    decreases |d|
  {
    if |d| > 0 {
      assert (d + rest)[1..] == d[1..] + rest;
      DigitRunOf(d[1..], rest);
    }
  }

  /** `t.match(/^kura-(\d+)-(.+)$/)`, giving the two groups. The greedy
      `\d+` can only end where the digits end, because the next character
      must be '-'; so the digit run decides the match. */
  function MatchAnimeToken(t: string): (m: Option<(string, string)>)
    ensures m.Some? ==> ValidId(m.value.0) && ValidNativeSlug(m.value.1)
    ensures m.Some? ==> t == PREFIX + m.value.0 + "-" + m.value.1
    ensures !StartsWith(t, PREFIX) ==> m.None?
  {
    if !StartsWith(t, PREFIX) then None
    else
      var rest := t[|PREFIX|..];
      var n := DigitRun(rest);
      if n == 0 || n >= |rest| || rest[n] != '-' then None
      else
        var slug := rest[n + 1..];
        if ValidNativeSlug(slug) then
          assert t == PREFIX + rest[..n] + "-" + slug;
          Some((rest[..n], slug))
        else None
  }

  /** The regular expression accepts every well-formed anime token and
      recovers its two parts. */
  lemma MatchAnimeTokenComplete(d: string, s: string)
    requires ValidId(d) && ValidNativeSlug(s)
    ensures MatchAnimeToken(PREFIX + d + "-" + s) == Some((d, s))
  {
    var t := PREFIX + d + "-" + s;
    var rest := t[|PREFIX|..];
    assert rest == d + ("-" + s);
    DigitRunOf(d, "-" + s);
    assert rest[..|d|] == d;
    assert rest[|d| + 1..] == s;
  }

  /** The anime token built for a Kuramanime search result. It carries the
      prefix, and the regular expression reads back the printed id and the
      slug whenever the slug is one the expression can capture. */
  function AnimeToken(id: nat, slug: string): (t: string)
    ensures StartsWith(t, PREFIX)
    ensures ValidNativeSlug(slug) ==> MatchAnimeToken(t) == Some((NatToString(id), slug))
  {
    var t := PREFIX + NatToString(id) + "-" + slug;
    assert t[..|PREFIX|] == PREFIX;
    assert ValidNativeSlug(slug) ==> MatchAnimeToken(t) == Some((NatToString(id), slug)) by {
      if ValidNativeSlug(slug) {
        MatchAnimeTokenComplete(NatToString(id), slug);
      }
    }
    t
  }

  /** Round trip of the anime token: the regular expression gives back the
      printed id, which denotes the original number, and the native slug,
      dashes and digits included. */
  lemma AnimeTokenRoundTrip(id: nat, slug: string)
    requires ValidNativeSlug(slug)
    ensures MatchAnimeToken(AnimeToken(id, slug)) == Some((NatToString(id), slug))
    ensures DigitsValue(NatToString(id)) == id
  {
    NatToStringRoundTrip(id);
  }

  /** Splitting `kura-<d>-<s>` on '-'. */
  lemma SplitToken(d: string, s: string)
    requires '-' !in d
    ensures Split(PREFIX + d + "-" + s, '-') == ["kura", d] + Split(s, '-')
  {
    var tail := d + ['-'] + s;
    TokenShape(d, s);
    SplitConcat("kura", '-', tail);
    SplitConcat(d, '-', s);
    SplitWithoutSeparator("kura", '-');
    SplitWithoutSeparator(d, '-');
    var rs := Split(s, '-');
    assert ["kura"] + ([d] + rs) == ["kura", d] + rs;
  }

  lemma TokenShape(d: string, s: string)
    ensures PREFIX + d + "-" + s == "kura" + ['-'] + (d + ['-'] + s)
  {
    var t := PREFIX + d + "-" + s;
    var u := "kura" + ['-'] + (d + ['-'] + s);
    assert |t| == |u|;
    forall k | 0 <= k < |t| ensures t[k] == u[k] {
      if k >= |PREFIX| + |d| + 1 {
        assert t[k] == s[k - |PREFIX| - |d| - 1];
      }
    }
  }

  /** The slug of one entry of a Kuramanime episode list: the anime token's
      id part, its remaining parts re-joined, and the episode number. Whatever
      the anime token, the episode endpoint decodes it to those three. */
  function EpisodeToken(animeToken: string, ep: nat): (t: string)
    ensures StartsWith(t, PREFIX)
    ensures var parts := Split(animeToken, '-');
      SplitEpisodeToken(t) == Some((At(parts, 1), Join(Slice(parts, 2, |parts|), "-"), NatToString(ep)))
  {
    var parts := Split(animeToken, '-');
    var d, s := At(parts, 1), Join(Slice(parts, 2, |parts|), "-");
    IdPartAvoidsDash(animeToken);
    EpisodeTokenRoundTrip(d, s, NatToString(ep));
    var t := PREFIX + d + "-" + s + "-" + NatToString(ep);
    assert t[..|PREFIX|] == PREFIX;
    t
  }

  /** For a token the regular expression accepts, the episode slug is the
      anime token with "-<ep>" appended. */
  lemma EpisodeTokenExtends(animeToken: string, ep: nat)
    requires MatchAnimeToken(animeToken).Some?
    ensures EpisodeToken(animeToken, ep) == animeToken + "-" + NatToString(ep)
  {
    var (d, s) := MatchAnimeToken(animeToken).value;
    SplitToken(d, s);
    var parts := Split(animeToken, '-');
    assert Slice(parts, 2, |parts|) == Split(s, '-');
    JoinSplit(s, '-');
  }

  /** How the episode endpoint reads an episode token: id = parts[1],
      episode = the last part, slug = the parts in between joined by '-';
      fewer than four parts is a failure. */
  function SplitEpisodeToken(t: string): (r: Option<(string, string, string)>)
    ensures r.Some? ==> '-' !in r.value.0 && '-' !in r.value.2
    ensures r.None? <==> |Split(t, '-')| < 4
  {
    var parts := Split(t, '-');
    SplitPartsAvoidSeparator(t, '-');
    if |parts| >= 4 then
      Some((parts[1], Join(Slice(parts, 2, |parts| - 1), "-"), parts[|parts| - 1]))
    else None
  }

  /** Round trip of the episode token, for any native slug (dashes, digits
      and the empty slug included), as long as id and episode carry no
      dash. */
  lemma EpisodeTokenRoundTrip(d: string, s: string, e: string)
    requires '-' !in d && '-' !in e
    ensures SplitEpisodeToken(PREFIX + d + "-" + s + "-" + e) == Some((d, s, e))
  {
    var t := PREFIX + d + "-" + s + "-" + e;
    assert t == PREFIX + d + "-" + (s + ['-'] + e);
    SplitToken(d, s + ['-'] + e);
    SplitConcat(s, '-', e);
    SplitWithoutSeparator(e, '-');
    var parts := Split(t, '-');
    assert parts == ["kura", d] + Split(s, '-') + [e];
    assert Slice(parts, 2, |parts| - 1) == Split(s, '-');
    JoinSplit(s, '-');
  }

  /** An episode token built from an anime token the regular expression
      accepts decodes to that anime's id and slug and to the episode. */
  lemma EpisodeOfAnimeRoundTrip(animeToken: string, ep: nat)
    requires MatchAnimeToken(animeToken).Some?
    ensures SplitEpisodeToken(EpisodeToken(animeToken, ep))
         == Some((MatchAnimeToken(animeToken).value.0, MatchAnimeToken(animeToken).value.1, NatToString(ep)))
  {
    var (d, s) := MatchAnimeToken(animeToken).value;
    EpisodeTokenExtends(animeToken, ep);
    assert EpisodeToken(animeToken, ep) == PREFIX + d + "-" + s + "-" + NatToString(ep);
    EpisodeTokenRoundTrip(d, s, NatToString(ep));
  }

  /** The two forms are told apart only by which endpoint receives them:
      an anime token whose native slug contains '-' also reads as an
      episode token, with the slug's last part taken as the episode. */
  lemma AnimeTokenReadsAsEpisode(id: nat, s: string, last: string)
    requires '-' !in last
    ensures SplitEpisodeToken(AnimeToken(id, s + "-" + last)) == Some((NatToString(id), s, last))
  {
    assert AnimeToken(id, s + "-" + last) == PREFIX + NatToString(id) + "-" + s + "-" + last;
    EpisodeTokenRoundTrip(NatToString(id), s, last);
  }

  /** Decoding an episode token loses nothing: a prefixed token the
      endpoint accepts is exactly `kura-<id>-<slug>-<episode>` of the three
      parts it decodes to. */
  lemma SplitEpisodeTokenSound(t: string)
    requires StartsWith(t, PREFIX) && SplitEpisodeToken(t).Some?
    ensures var (d, s, e) := SplitEpisodeToken(t).value;
      t == PREFIX + d + "-" + s + "-" + e
  {
    var (d, s, e) := SplitEpisodeToken(t).value;
    var parts := Split(t, '-');
    var n := |parts|;
    var rest := t[|PREFIX|..];
    assert t == "kura" + ['-'] + rest;
    SplitConcat("kura", '-', rest);
    SplitWithoutSeparator("kura", '-');
    assert parts[0] == "kura";
    JoinSplit(t, '-');
    JoinCons(parts, "-");
    JoinCons(parts[1..], "-");
    assert parts[1..][1..] == parts[2..];
    JoinSnoc(parts[2..], "-");
    assert parts[2..][..|parts[2..]| - 1] == Slice(parts, 2, n - 1);
    assert t == "kura" + "-" + (d + "-" + (s + "-" + e));
    TokenAssoc(d, s, e);
  }

  lemma TokenAssoc(d: string, s: string, e: string)
    ensures "kura" + "-" + (d + "-" + (s + "-" + e)) == PREFIX + d + "-" + s + "-" + e
  {
  }

  /** The slug of the previous or next episode: the current token's id part
      and middle parts kept, the last part replaced by the navigation
      value; the episode endpoint decodes it to those three. */
  function NeighbourToken(t: string, nav: nat): (r: string)
    ensures StartsWith(r, PREFIX)
    ensures var parts := Split(t, '-');
      SplitEpisodeToken(r) == Some((At(parts, 1), Join(Slice(parts, 2, -1), "-"), NatToString(nav)))
  {
    var parts := Split(t, '-');
    var d, s := At(parts, 1), Join(Slice(parts, 2, -1), "-");
    IdPartAvoidsDash(t);
    EpisodeTokenRoundTrip(d, s, NatToString(nav));
    var r := PREFIX + d + "-" + s + "-" + NatToString(nav);
    assert r[..|PREFIX|] == PREFIX;
    r
  }

  /** The id part read from a token never contains '-'. */
  lemma IdPartAvoidsDash(t: string)
    ensures '-' !in At(Split(t, '-'), 1)
  {
    SplitPartsAvoidSeparator(t, '-');
  }

  /** A neighbour token names the same anime as the token it came from and
      decodes to the navigation value as its episode. */
  lemma NeighbourTokenKeepsAnime(t: string, nav: nat)
    requires SplitEpisodeToken(t).Some?
    ensures var (d, s, _) := SplitEpisodeToken(t).value;
      && NeighbourToken(t, nav) == PREFIX + d + "-" + s + "-" + NatToString(nav)
      && SplitEpisodeToken(NeighbourToken(t, nav)) == Some((d, s, NatToString(nav)))
  {
    var (d, s, _) := SplitEpisodeToken(t).value;
    var parts := Split(t, '-');
    assert Slice(parts, 2, -1) == Slice(parts, 2, |parts| - 1);
    EpisodeTokenRoundTrip(d, s, NatToString(nav));
  }
}
