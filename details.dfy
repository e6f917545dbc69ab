/** The details page of one title: what it derives from the loaded records
    (title, year, cast, trailers, the player URL, the next episode) and the
    handlers of its buttons, which update the watchlist provider and the
    episode-tracking provider. `Date.now()` is the parameter `now`; toasts
    and scrolling are reported, not performed. */
module Details {
  import opened Wrappers
  import opened Text
  import opened Tmdb
  import opened Watchlist
  import EpisodeTracking
  import AdBlocker

  // ---------------------------------------------------------------------
  // Values derived from the loaded records

  const UnknownTitle: string := "Unknown Title"
  const NoYear: string := "N/A"

  /** `movie.title || movie.name || "Unknown Title"`: the first non-empty
      of the two names, and never the empty string. */
  function DisplayTitle(m: MovieRecord): (r: string)
    ensures r != ""
    ensures m.title.Some? && m.title.value != "" ==> r == m.title.value
    ensures (m.title.None? || m.title.value == "") && m.name.Some? && m.name.value != "" ==> r == m.name.value
    ensures (r == m.title.GetOr("") || r == m.name.GetOr("") || r == UnknownTitle)
  {
    if m.title.Some? && m.title.value != "" then m.title.value
    else if m.name.Some? && m.name.value != "" then m.name.value
    else UnknownTitle
  }

  /** `s.split("-")[0]`: the longest prefix without a dash. */
  function BeforeFirstDash(s: string): (r: string)
    ensures r <= s
    ensures '-' !in r
    ensures |r| < |s| ==> s[|r|] == '-'
  {
    if s == [] || s[0] == '-' then [] else [s[0]] + BeforeFirstDash(s[1..])
  }

  /** The year shown: the part of the release date before the first dash,
      else that of the first air date, else "N/A"; an empty part counts as
      missing. */
  function ReleaseYear(m: MovieRecord): (r: string)
    ensures r != ""
    ensures r == NoYear || (m.releaseDate.Some? && r == BeforeFirstDash(m.releaseDate.value))
                        || (m.firstAirDate.Some? && r == BeforeFirstDash(m.firstAirDate.value))
    ensures m.releaseDate.Some? && BeforeFirstDash(m.releaseDate.value) != "" ==> r == BeforeFirstDash(m.releaseDate.value)
    ensures ((m.releaseDate.None? || BeforeFirstDash(m.releaseDate.value) == "") &&
             m.firstAirDate.Some? && BeforeFirstDash(m.firstAirDate.value) != "") ==> r == BeforeFirstDash(m.firstAirDate.value)
    ensures ((m.releaseDate.None? || BeforeFirstDash(m.releaseDate.value) == "") &&
             (m.firstAirDate.None? || BeforeFirstDash(m.firstAirDate.value) == "")) ==> r == NoYear
  {
    var fromRelease := if m.releaseDate.Some? then BeforeFirstDash(m.releaseDate.value) else "";
    var fromAir := if m.firstAirDate.Some? then BeforeFirstDash(m.firstAirDate.value) else "";
    if fromRelease != "" then fromRelease else if fromAir != "" then fromAir else NoYear
  }

  /** Cutting `a-b` at the first dash gives `a` when `a` has no dash. */
  lemma {:induction false} BeforeFirstDashOfJoin(a: string, b: string)
    requires '-' !in a
    ensures BeforeFirstDash(a + "-" + b) == a
  {
    if a != [] {
      assert (a + "-" + b)[1..] == a[1..] + "-" + b;
      BeforeFirstDashOfJoin(a[1..], b);
    } else {
      assert a + "-" + b == "-" + b;
    }
  }

  /** The year of a release date `yyyy-mm-dd` is its `yyyy`. */
  lemma YearOfIsoDate(m: MovieRecord, year: string, rest: string)
    requires year != "" && '-' !in year
    requires m.releaseDate == Some(year + "-" + rest)
    ensures ReleaseYear(m) == year
  {
    BeforeFirstDashOfJoin(year, rest);
  }

  /** A show has no release date; its year is that of its first air date. */
  lemma YearOfFirstAirDate(m: MovieRecord, year: string, rest: string)
    requires year != "" && '-' !in year
    requires m.releaseDate.None? && m.firstAirDate == Some(year + "-" + rest)
    ensures ReleaseYear(m) == year
  {
    BeforeFirstDashOfJoin(year, rest);
  }

  const CastShown: nat := 6

  /** `cast.slice(0, 6)`: the first six credits, in order. */
  function TopCast(cast: seq<Cast>): (r: seq<Cast>)
    ensures r <= cast
    ensures |r| == if |cast| < CastShown then |cast| else CastShown
  {
    if |cast| < CastShown then cast else cast[..CastShown]
  }

  predicate IsTrailer(v: Video) {
    v.site == "YouTube" && v.kind == "Trailer"
  }

  /** `videos.filter(v => v.site === 'YouTube' && v.type === 'Trailer')`. */
  function Trailers(videos: seq<Video>): (r: seq<Video>)
    ensures |r| <= |videos|
    ensures forall k :: 0 <= k < |r| ==> IsTrailer(r[k]) && r[k] in videos
    ensures forall k :: 0 <= k < |videos| && IsTrailer(videos[k]) ==> videos[k] in r
  {
    if videos == [] then []
    else (if IsTrailer(videos[0]) then [videos[0]] else []) + Trailers(videos[1..])
  }

  /** The filter works piecewise, so trailers keep their relative order. */
  lemma {:induction false} TrailersAppend(a: seq<Video>, b: seq<Video>)
    ensures Trailers(a + b) == Trailers(a) + Trailers(b)
  {
    if a != [] {
      assert (a + b)[1..] == a[1..] + b;
      TrailersAppend(a[1..], b);
    } else {
      assert a + b == b;
    }
  }

  /** Filtering the trailers again changes nothing. */
  lemma {:induction false} TrailersIdempotent(videos: seq<Video>)
    ensures Trailers(Trailers(videos)) == Trailers(videos)
  {
    if videos != [] {
      TrailersIdempotent(videos[1..]);
      var head := if IsTrailer(videos[0]) then [videos[0]] else [];
      TrailersAppend(head, Trailers(videos[1..]));
      if IsTrailer(videos[0]) {
        assert Trailers(head) == head by {
          assert head[1..] == [];
        }
      }
    }
  }

  // ---------------------------------------------------------------------
  // The player

  const EmbedBase: string := "https://vidsrc.to/embed/"

  /** `getPlayerUrl`: the show's season and episode under `embed/tv`, or the
      movie under `embed/movie`. */
  function PlayerUrl(isTv: bool, id: string, season: int, episode: int): (r: string)
    ensures EmbedBase <= r
    ensures isTv ==> EmbedBase + "tv/" <= r
    ensures !isTv ==> EmbedBase + "movie/" <= r
  {
    if isTv then EmbedBase + "tv/" + id + "/" + IntToString(season) + "/" + IntToString(episode)
    else EmbedBase + "movie/" + id
  }

  // Lowering a string literal inside a larger proof is costly for the
  // solver, so the fact is proved on its own here.
  lemma LowerEmbedBase(p: string)
    requires p == EmbedBase
    ensures ToLower(p) == p
  {
  }

  /** The ad blocker never blocks the player: every player URL holds the
      whitelisted host. */
  lemma PlayerUrlNeverBlocked(isTv: bool, id: string, season: int, episode: int, env: AdBlocker.Env)
    ensures !AdBlocker.ShouldBlock(PlayerUrl(isTv, id, season, episode), env)
  {
    var url := PlayerUrl(isTv, id, season, episode);
    var rest := url[|EmbedBase|..];
    assert url == EmbedBase + rest;
    ToLowerAppend(EmbedBase, rest);
    LowerEmbedBase(EmbedBase);
    var lower := ToLower(url);
    assert lower == EmbedBase + ToLower(rest);
    assert lower[8..17] == EmbedBase[8..17] == AdBlocker.WhitelistPatterns[1];
    assert OccursAt(lower, AdBlocker.WhitelistPatterns[1], 8);
    IncludesFromOccurrence(lower, AdBlocker.WhitelistPatterns[1], 8);
    AdBlocker.WhitelistWins(url, env, 1);
  }

  /** The mutation sentinel keeps the player: an inserted element whose
      `src` is a player URL and whose class name and id hold no ad keyword
      stays in the document. */
  lemma PlayerIframeKept(n: AdBlocker.Node, env: AdBlocker.Env, isTv: bool, id: string, season: int, episode: int)
    requires n.src == Some(PlayerUrl(isTv, id, season, episode)) && !AdBlocker.HasAdKeyword(n)
    ensures !AdBlocker.ShouldRemove(n, env)
  {
    PlayerUrlNeverBlocked(isTv, id, season, episode, env);
  }

  /** Different episodes of a show, or different shows, get different player
      URLs (a route id never holds `/`). */
  lemma PlayerUrlInjective(id1: string, s1: int, e1: int, id2: string, s2: int, e2: int)
    requires '/' !in id1 && '/' !in id2
    ensures PlayerUrl(true, id1, s1, e1) == PlayerUrl(true, id2, s2, e2) ==> id1 == id2 && s1 == s2 && e1 == e2
  {
    var head := EmbedBase + "tv/";
    var a1, b1 := IntToString(s1), IntToString(e1);
    var a2, b2 := IntToString(s2), IntToString(e2);
    var t1 := id1 + "/" + (a1 + "/" + b1);
    var t2 := id2 + "/" + (a2 + "/" + b2);
    assert PlayerUrl(true, id1, s1, e1) == head + t1;
    assert PlayerUrl(true, id2, s2, e2) == head + t2;
    if PlayerUrl(true, id1, s1, e1) == PlayerUrl(true, id2, s2, e2) {
      assert t1 == (head + t1)[|head|..] == (head + t2)[|head|..] == t2;
      SplitAtSeparator(id1, a1 + "/" + b1, id2, a2 + "/" + b2, '/');
      NoSlashInNumber(s1);
      NoSlashInNumber(s2);
      SplitAtSeparator(a1, b1, a2, b2, '/');
      IntToStringInjective(s1, s2);
      IntToStringInjective(e1, e2);
    }
  }

  /** Different movies get different player URLs. */
  lemma MoviePlayerUrlInjective(id1: string, id2: string, s1: int, e1: int, s2: int, e2: int)
    ensures PlayerUrl(false, id1, s1, e1) == PlayerUrl(false, id2, s2, e2) ==> id1 == id2
  {
    StripPrefix(EmbedBase + "movie/", id1, id2);
  }

  /** A show's player URL is never a movie's: the path after `embed/`
      starts with `t` for a show and with `m` for a movie. */
  lemma TvUrlNeverMovieUrl(id1: string, season: int, episode: int, id2: string, s: int, e: int)
    ensures PlayerUrl(true, id1, season, episode) != PlayerUrl(false, id2, s, e)
  {
    var tv, movie := PlayerUrl(true, id1, season, episode), PlayerUrl(false, id2, s, e);
    var k := |EmbedBase|;
    assert tv[k] == (EmbedBase + "tv/")[k] == 't';
    assert movie[k] == (EmbedBase + "movie/")[k] == 'm';
  }

  // ---------------------------------------------------------------------
  // The next episode

  /** `episodes.findIndex(ep => ep.episode_number === n)`: the first index
      holding the number, or -1. */
  function FindEpisodeIndex(episodes: seq<Episode>, n: int): (r: int)
    ensures -1 <= r < |episodes|
    ensures r >= 0 ==> episodes[r].episodeNumber == n && forall k :: 0 <= k < r ==> episodes[k].episodeNumber != n
    ensures r == -1 ==> forall k :: 0 <= k < |episodes| ==> episodes[k].episodeNumber != n
  {
    if episodes == [] then -1
    else if episodes[0].episodeNumber == n then 0
    else
      var i := FindEpisodeIndex(episodes[1..], n);
      assert forall k :: 1 <= k < |episodes| ==> episodes[k] == episodes[1..][k - 1];
      if i == -1 then -1 else i + 1
  }

  /** What "next episode" plays: the episode after the first one with the
      selected number; the first episode when the number is not in the
      season; nothing after the last. */
  function NextEpisode(episodes: seq<Episode>, current: int): (r: Option<Episode>)
    ensures |episodes| == 0 ==> r.None?
    ensures (forall k :: 0 <= k < |episodes| ==> episodes[k].episodeNumber != current) && |episodes| > 0
      ==> r == Some(episodes[0])
    ensures forall i :: (0 <= i < |episodes| && episodes[i].episodeNumber == current &&
                        (forall k :: 0 <= k < i ==> episodes[k].episodeNumber != current))
                       ==> r == (if i + 1 < |episodes| then Some(episodes[i + 1]) else None)
  {
    var i := FindEpisodeIndex(episodes, current);
    if i < |episodes| - 1 then Some(episodes[i + 1]) else None
  }

  /** On a season whose episodes are numbered 1, 2, … in order, the episode
      after number `n` is number `n + 1`, and the last has no successor. */
  lemma NextInNumberedSeason(episodes: seq<Episode>, n: int)
    requires forall k :: 0 <= k < |episodes| ==> episodes[k].episodeNumber == k + 1
    requires 1 <= n <= |episodes|
    ensures n < |episodes| ==> NextEpisode(episodes, n) == Some(episodes[n]) && episodes[n].episodeNumber == n + 1
    ensures n == |episodes| ==> NextEpisode(episodes, n).None?
  {
    assert episodes[n - 1].episodeNumber == n;
  }

  // ---------------------------------------------------------------------
  // The page

  /** The report of "next episode": the toast names either the episode now
      playing or the end of the season. */
  datatype NextReport = PlayingNext(season: int, episode: Episode) | SeasonComplete

  /** The component's state cells, with the route parameters and the two
      providers it uses. `routeId` is the `:id` parameter ("" when absent)
      and `showId` its `parseInt`. */
  class DetailsPage {
    const routeId: string
    const showId: int
    const mediaType: Option<MediaType>
    const hasApiKeys: bool
    const store: WatchlistStore
    const tracker: EpisodeTracking.EpisodeTracker

    var movie: Option<MovieRecord>
    var cast: seq<Cast>
    var videos: seq<Video>
    var selectedSeason: int
    var episodes: seq<Episode>
    var selectedEpisode: int
    var showPlayer: bool
    var loading: bool

    constructor(routeId: string, showId: int, mediaType: Option<MediaType>, hasApiKeys: bool,
                store: WatchlistStore, tracker: EpisodeTracking.EpisodeTracker)
      ensures this.routeId == routeId && this.showId == showId && this.mediaType == mediaType
      ensures this.hasApiKeys == hasApiKeys && this.store == store && this.tracker == tracker
      ensures movie.None? && cast == [] && videos == [] && episodes == []
      ensures selectedSeason == 1 && selectedEpisode == 1 && !showPlayer && loading
    {
      this.routeId := routeId;
      this.showId := showId;
      this.mediaType := mediaType;
      this.hasApiKeys := hasApiKeys;
      this.store := store;
      this.tracker := tracker;
      movie := None;
      cast := [];
      videos := [];
      selectedSeason := 1;
      episodes := [];
      selectedEpisode := 1;
      showPlayer := false;
      loading := true;
    }

    predicate IsTvShow() {
      mediaType == Some(Tv)
    }

    /** Whether the title's details can be requested at all. */
    predicate CanLoad() {
      hasApiKeys && routeId != "" && mediaType.Some?
    }

    /** The player URL of the current selection. */
    function CurrentPlayerUrl(): (r: string)
      reads this
      ensures IsTvShow() ==> r == PlayerUrl(true, routeId, selectedSeason, selectedEpisode)
      ensures !IsTvShow() ==> r == PlayerUrl(false, routeId, 0, 0)
    {
      PlayerUrl(IsTvShow(), routeId, selectedSeason, selectedEpisode)
    }

    /** The entry that favourites and the watchlist receive for this title. */
    function ListItem(now: int): WatchlistItem
      requires movie.Some? && mediaType.Some?
      reads this
    {
      WatchlistItem(showId, DisplayTitle(movie.value), movie.value.posterPath.GetOr(""),
                    movie.value.voteAverage, mediaType.value, now)
    }

    /** The continue-watching entry "play" records: the season and episode
      for a show only, and progress 0. */
    function PlayEntry(now: int): ContinueWatchingItem
      requires movie.Some? && mediaType.Some?
      reads this
    {
      ContinueWatchingItem(ListItem(now),
        if IsTvShow() then Some(selectedSeason) else None,
        if IsTvShow() then Some(selectedEpisode) else None,
        Some(0.0), now)
    }

    /** The first effect's result: the record with the first six credits and
      the YouTube trailers, and for a show the season and episode restored
      from its tracked progress. `result` is `None` when a request failed. */
    method DetailsLoaded(result: Option<(MovieRecord, seq<Cast>, seq<Video>)>)
      requires CanLoad()
      modifies this
      ensures result.None? ==> movie == old(movie) && cast == old(cast) && videos == old(videos)
      ensures result.Some? ==>
        movie == Some(result.value.0) && cast == TopCast(result.value.1) && videos == Trailers(result.value.2)
      ensures var p := EpisodeTracking.GetShowProgress(tracker.tracking, showId);
        if result.Some? && IsTvShow() && p.Some?
        then selectedSeason == p.value.currentSeason && selectedEpisode == p.value.currentEpisode
        else selectedSeason == old(selectedSeason) && selectedEpisode == old(selectedEpisode)
      ensures episodes == old(episodes) && showPlayer == old(showPlayer) && !loading
    {
      if result.Some? {
        var (m, c, v) := result.value;
        movie := Some(m);
        cast := TopCast(c);
        videos := Trailers(v);
        if IsTvShow() {
          var p := EpisodeTracking.GetShowProgress(tracker.tracking, showId);
          if p.Some? {
            selectedSeason := p.value.currentSeason;
            selectedEpisode := p.value.currentEpisode;
          }
        }
      }
      loading := false;
    }

    /** The second effect's result: a show's episodes for the selected
      season, after which episode 1 is selected. For a movie, without keys
      or id, or with season 0 the effect does nothing. */
    method EpisodesLoaded(result: Option<seq<Episode>>)
      modifies this
      ensures if IsTvShow() && hasApiKeys && routeId != "" && selectedSeason != 0 && result.Some?
        then episodes == result.value && selectedEpisode == 1
        else episodes == old(episodes) && selectedEpisode == old(selectedEpisode)
      ensures movie == old(movie) && cast == old(cast) && videos == old(videos)
      ensures selectedSeason == old(selectedSeason) && showPlayer == old(showPlayer) && loading == old(loading)
    {
      if IsTvShow() && hasApiKeys && routeId != "" && selectedSeason != 0 && result.Some? {
        episodes := result.value;
        selectedEpisode := 1;
      }
    }

    /** The season picker: the chosen season becomes the selected one; its
      episodes arrive later through `EpisodesLoaded`. */
    method SelectSeason(season: int)
      modifies this`selectedSeason
      ensures selectedSeason == season
    {
      selectedSeason := season;
    }

    /** `handlePlayClick`: show the player, record a show's progress, and put
      the title at the front of continue watching. */
    method HandlePlayClick(now: int)
      modifies this, store, tracker
      ensures showPlayer
      ensures movie == old(movie) && selectedSeason == old(selectedSeason) && selectedEpisode == old(selectedEpisode)
      ensures episodes == old(episodes) && cast == old(cast) && videos == old(videos) && loading == old(loading)
      ensures tracker.tracking == if IsTvShow() && routeId != ""
        then EpisodeTracking.UpdateProgress(old(tracker.tracking), showId, selectedSeason, selectedEpisode, now)
        else old(tracker.tracking)
      ensures store.continueWatching == if movie.Some? && routeId != "" && mediaType.Some?
        then AddToContinueWatching(old(store.continueWatching), PlayEntry(now), now)
        else old(store.continueWatching)
      ensures movie.Some? && routeId != "" && mediaType.Some? ==> store.continueWatching[0].item.id == showId
      ensures store.favorites == old(store.favorites) && store.watchlist == old(store.watchlist)
    {
      showPlayer := true;
      if IsTvShow() && routeId != "" {
        tracker.Update(showId, selectedSeason, selectedEpisode, now);
      }
      if movie.Some? && routeId != "" && mediaType.Some? {
        store.AddToContinueWatchingEntry(PlayEntry(now), now);
      }
    }

    /** `handleEpisodeClick`: select the episode, show the player, and record
      the episode as the show's current one. */
    method HandleEpisodeClick(episodeNumber: int, now: int)
      modifies this, tracker
      ensures selectedEpisode == episodeNumber && showPlayer
      ensures movie == old(movie) && selectedSeason == old(selectedSeason) && episodes == old(episodes)
      ensures cast == old(cast) && videos == old(videos) && loading == old(loading)
      ensures tracker.tracking == if routeId != ""
        then EpisodeTracking.UpdateProgress(old(tracker.tracking), showId, selectedSeason, episodeNumber, now)
        else old(tracker.tracking)
    {
      selectedEpisode := episodeNumber;
      showPlayer := true;
      if routeId != "" {
        tracker.Update(showId, selectedSeason, episodeNumber, now);
      }
    }

    /** `handleMarkWatched`: mark the episode of the selected season watched;
      returns whether the toast is shown. The page state is untouched. */
    method HandleMarkWatched(episodeNumber: int, now: int) returns (toasted: bool)
      modifies tracker
      ensures toasted <==> routeId != ""
      ensures tracker.tracking == if routeId != ""
        then EpisodeTracking.MarkEpisodeWatched(old(tracker.tracking), showId, selectedSeason, episodeNumber, now)
        else old(tracker.tracking)
      ensures routeId != "" ==> EpisodeTracking.IsEpisodeWatched(tracker.tracking, showId, selectedSeason, episodeNumber)
    {
      toasted := routeId != "";
      if toasted {
        tracker.MarkWatched(showId, selectedSeason, episodeNumber, now);
        EpisodeTracking.MarkThenWatched(old(tracker.tracking), showId, selectedSeason, episodeNumber, now, now);
      }
    }

    /** `handleNextEpisode`: play the episode `NextEpisode` picks, or report
      the end of the season and change nothing. */
    method HandleNextEpisode(now: int) returns (report: NextReport)
      modifies this, tracker
      ensures var next := NextEpisode(old(episodes), old(selectedEpisode));
        if next.Some? then
          report == PlayingNext(selectedSeason, next.value) && selectedEpisode == next.value.episodeNumber &&
          showPlayer &&
          tracker.tracking == (if routeId != ""
            then EpisodeTracking.UpdateProgress(old(tracker.tracking), showId, selectedSeason, next.value.episodeNumber, now)
            else old(tracker.tracking))
        else
          report == SeasonComplete && selectedEpisode == old(selectedEpisode) && showPlayer == old(showPlayer) &&
          tracker.tracking == old(tracker.tracking)
      ensures movie == old(movie) && selectedSeason == old(selectedSeason) && episodes == old(episodes)
      ensures cast == old(cast) && videos == old(videos) && loading == old(loading)
    {
      var i := FindEpisodeIndex(episodes, selectedEpisode);
      if i < |episodes| - 1 {
        var nextEp := episodes[i + 1];
        HandleEpisodeClick(nextEp.episodeNumber, now);
        report := PlayingNext(selectedSeason, nextEp);
      } else {
        report := SeasonComplete;
      }
    }

    /** `handleStartFromBeginning`: season 1, episode 1, player shown, and
      the show's progress reset to that episode. */
    method HandleStartFromBeginning(now: int)
      modifies this, tracker
      ensures selectedSeason == 1 && selectedEpisode == 1 && showPlayer
      ensures movie == old(movie) && episodes == old(episodes)
      ensures cast == old(cast) && videos == old(videos) && loading == old(loading)
      ensures tracker.tracking == if routeId != ""
        then EpisodeTracking.UpdateProgress(old(tracker.tracking), showId, 1, 1, now)
        else old(tracker.tracking)
    {
      selectedSeason := 1;
      selectedEpisode := 1;
      showPlayer := true;
      if routeId != "" {
        tracker.Update(showId, 1, 1, now);
      }
    }

    /** `handleToggleFavorite`: nothing without a record, an id or a media
      type; otherwise the title leaves the favourites when it is there and
      joins them when it is not. */
    method HandleToggleFavorite(now: int)
      modifies store
      ensures if movie.Some? && routeId != "" && mediaType.Some?
        then store.favorites == Toggle(old(store.favorites), ListItem(now), now)
          && (store.IsFavorite(showId) <==> !old(store.IsFavorite(showId)))
        else store.favorites == old(store.favorites)
      ensures store.watchlist == old(store.watchlist) && store.continueWatching == old(store.continueWatching)
    {
      if movie.None? || routeId == "" || mediaType.None? {
        return;
      }
      if store.IsFavorite(showId) {
        store.RemoveFromFavorites(showId);
      } else {
        store.AddToFavorites(ListItem(now), now);
      }
    }

    /** `handleToggleWatchlist`: the same toggle on the watchlist. */
    method HandleToggleWatchlist(now: int)
      modifies store
      ensures if movie.Some? && routeId != "" && mediaType.Some?
        then store.watchlist == Toggle(old(store.watchlist), ListItem(now), now)
          && (store.IsInWatchlist(showId) <==> !old(store.IsInWatchlist(showId)))
        else store.watchlist == old(store.watchlist)
      ensures store.favorites == old(store.favorites) && store.continueWatching == old(store.continueWatching)
    {
      if movie.None? || routeId == "" || mediaType.None? {
        return;
      }
      if store.IsInWatchlist(showId) {
        store.RemoveFromWatchlist(showId);
      } else {
        store.AddToWatchlist(ListItem(now), now);
      }
    }
  }
}
