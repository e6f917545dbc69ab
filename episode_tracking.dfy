/** Per-show episode progress of `EpisodeTrackingProvider`: a record per
    show, keyed by the show id's decimal string, whose watched episodes are
    kept as `"season-episode"` strings. Updates build a new map; the model
    runs them one after another. `Date.now()` is the parameter `now`. */
module EpisodeTracking {
  import opened Wrappers
  import opened Text

  datatype EpisodeProgress = EpisodeProgress(
    showId: int, currentSeason: int, currentEpisode: int, watchedEpisodes: seq<string>, lastWatchedAt: int)

  /** The stored record: show id string to progress. */
  type Tracking = map<string, EpisodeProgress>

  /** `showId.toString()`. */
  function ShowKey(showId: int): (r: string)
    ensures r != ""
    ensures showId >= 0 ==> forall i :: 0 <= i < |r| ==> IsDigit(r[i])
  {
    IntToString(showId)
  }

  /** `${season}-${episode}`. */
  function EpisodeKey(season: int, episode: int): (r: string)
    ensures SeasonPrefix(season) <= r
    ensures EndsWith(r, IntToString(episode))
  {
    IntToString(season) + "-" + IntToString(episode)
  }

  /** `${season}-`, the prefix the season count looks for. */
  function SeasonPrefix(season: int): (r: string)
    ensures |r| >= 2 && r[|r| - 1] == '-'
  {
    IntToString(season) + "-"
  }

  /** Different shows have different keys, so updating one never touches another. */
  lemma ShowKeyInjective(a: int, b: int)
    ensures ShowKey(a) == ShowKey(b) ==> a == b
  {
    IntToStringInjective(a, b);
  }

  /** `getShowProgress`: the show's record, or `null` when it has none. */
  function GetShowProgress(t: Tracking, showId: int): (r: Option<EpisodeProgress>)
    ensures r.None? <==> ShowKey(showId) !in t
    ensures r.Some? ==> r.value == t[ShowKey(showId)]
  {
    var key := ShowKey(showId);
    if key in t then Some(t[key]) else None
  }

  /** The watched list of a show, empty when it has no record. */
  function WatchedOf(t: Tracking, showId: int): seq<string> {
    match GetShowProgress(t, showId)
    case Some(p) => p.watchedEpisodes
    case None => []
  }

  /** `updateProgress`: the show's current season and episode become the
      given ones, its watched list is kept (empty for a new show), and every
      other show's record stays. */
  function UpdateProgress(t: Tracking, showId: int, season: int, episode: int, now: int): (r: Tracking)
    ensures r.Keys == t.Keys + {ShowKey(showId)}
    ensures r[ShowKey(showId)] == EpisodeProgress(showId, season, episode, WatchedOf(t, showId), now)
    ensures forall other :: other != showId && ShowKey(other) in t ==> r[ShowKey(other)] == t[ShowKey(other)]
  {
    forall other | other != showId ensures ShowKey(other) != ShowKey(showId) {
      ShowKeyInjective(other, showId);
    }
    t[ShowKey(showId) := EpisodeProgress(showId, season, episode, WatchedOf(t, showId), now)]
  }

  /** `markEpisodeWatched`: nothing happens when the episode is already in
      the watched list, not even to the current season and episode;
      otherwise its key is appended and the current position becomes it. */
  function MarkEpisodeWatched(t: Tracking, showId: int, season: int, episode: int, now: int): (r: Tracking)
    ensures EpisodeKey(season, episode) in WatchedOf(t, showId) ==> r == t
    ensures EpisodeKey(season, episode) !in WatchedOf(t, showId) ==>
      r == t[ShowKey(showId) := EpisodeProgress(showId, season, episode,
                                                WatchedOf(t, showId) + [EpisodeKey(season, episode)], now)]
  {
    var watched := WatchedOf(t, showId);
    var key := EpisodeKey(season, episode);
    if key in watched then t
    else t[ShowKey(showId) := EpisodeProgress(showId, season, episode, watched + [key], now)]
  }

  /** `isEpisodeWatched`: false for an untracked show, otherwise whether the
      episode's key is in the watched list. */
  function IsEpisodeWatched(t: Tracking, showId: int, season: int, episode: int): (r: bool)
    ensures ShowKey(showId) !in t ==> !r
    ensures r <==> EpisodeKey(season, episode) in WatchedOf(t, showId)
  {
    match GetShowProgress(t, showId)
    case None => false
    case Some(p) => EpisodeKey(season, episode) in p.watchedEpisodes
  }

  /** After marking an episode it reads as watched, and marking it again
      changes nothing. */
  lemma MarkThenWatched(t: Tracking, showId: int, season: int, episode: int, now: int, later: int)
    ensures IsEpisodeWatched(MarkEpisodeWatched(t, showId, season, episode, now), showId, season, episode)
    ensures var once := MarkEpisodeWatched(t, showId, season, episode, now);
      MarkEpisodeWatched(once, showId, season, episode, later) == once
  {
  }

  /** Marking leaves every other show's record as it was. */
  lemma MarkLeavesOtherShows(t: Tracking, showId: int, season: int, episode: int, now: int, other: int)
    requires other != showId
    ensures GetShowProgress(MarkEpisodeWatched(t, showId, season, episode, now), other) == GetShowProgress(t, other)
  {
    ShowKeyInjective(other, showId);
  }

  predicate NoDuplicates(s: seq<string>) {
    forall i, j :: 0 <= i < j < |s| ==> s[i] != s[j]
  }

  /** No watched list holds the same episode twice. */
  predicate WatchedListsUnique(t: Tracking) {
    forall key :: key in t ==> NoDuplicates(t[key].watchedEpisodes)
  }

  /** Both updates keep the watched lists free of duplicates. */
  lemma UpdatesKeepWatchedUnique(t: Tracking, showId: int, season: int, episode: int, now: int)
    requires WatchedListsUnique(t)
    ensures WatchedListsUnique(UpdateProgress(t, showId, season, episode, now))
    ensures WatchedListsUnique(MarkEpisodeWatched(t, showId, season, episode, now))
  {
    var watched := WatchedOf(t, showId);
    assert NoDuplicates(watched);
    var key := EpisodeKey(season, episode);
    if key !in watched {
      var w2 := watched + [key];
      forall i, j | 0 <= i < j < |w2| ensures w2[i] != w2[j] {
        if j == |watched| {
          assert w2[i] == watched[i];
        }
      }
    }
  }

  // ---------------------------------------------------------------------
  // Season progress

  /** `watchedEpisodes.filter(ep => ep.startsWith(prefix)).length`. */
  function CountWithPrefix(keys: seq<string>, prefix: string): (r: nat)
    ensures r <= |keys|
    ensures r == 0 <==> forall k :: 0 <= k < |keys| ==> !(prefix <= keys[k])
    ensures r == |keys| <==> forall k :: 0 <= k < |keys| ==> prefix <= keys[k]
  {
    if keys == [] then 0
    else (if prefix <= keys[0] then 1 else 0) + CountWithPrefix(keys[1..], prefix)
  }

  /** `Math.round(watched / total * 100)` for a positive total, in integer
      arithmetic: the nearest whole percentage, halves rounded up. */
  function RoundedPercentage(watched: nat, total: int): (r: int)
    requires total > 0
    ensures 2 * total * r <= 200 * watched + total < 2 * total * (r + 1)
  {
    (200 * watched + total) / (2 * total)
  }

  /** Cancelling a positive factor keeps a strict order. */
  lemma CancelPositiveFactor(c: int, x: int, y: int)
    requires c > 0
    ensures c * x < c * y ==> x < y
  {
    if x >= y {
      assert c * x - c * y == c * (x - y) >= 0;
    }
  }

  /** The rounded percentage of a watched count within the total stays within
      0..100, and is 0 for none watched and 100 for all watched. */
  lemma PercentageBounds(watched: nat, total: int)
    requires total > 0 && watched <= total
    ensures 0 <= RoundedPercentage(watched, total) <= 100
    ensures watched == 0 ==> RoundedPercentage(watched, total) == 0
    ensures watched == total ==> RoundedPercentage(watched, total) == 100
  {
    var r, c := RoundedPercentage(watched, total), 2 * total;
    assert c * r <= 200 * watched + total < c * (r + 1);
    assert c * r < c * 101;
    CancelPositiveFactor(c, r, 101);
    assert c * 0 < c * (r + 1);
    CancelPositiveFactor(c, 0, r + 1);
    if watched == 0 {
      assert c * r < c * 1;
      CancelPositiveFactor(c, r, 1);
    }
    if watched == total {
      assert c * 100 < c * (r + 1);
      CancelPositiveFactor(c, 100, r + 1);
    }
  }

  datatype SeasonProgress = SeasonProgress(watched: nat, total: int, percentage: int)

  /** `getSeasonProgress`: zero watched and zero percent for an untracked
      show; otherwise the number of watched keys starting with `${season}-`;
      the percentage is 0 when the total is 0; the total is always the one
      passed in. */
  function GetSeasonProgress(t: Tracking, showId: int, season: int, totalEpisodes: int): (r: SeasonProgress)
    ensures r.total == totalEpisodes
    ensures ShowKey(showId) !in t ==> r.watched == 0 && r.percentage == 0
    ensures ShowKey(showId) in t ==> r.watched == CountWithPrefix(t[ShowKey(showId)].watchedEpisodes, SeasonPrefix(season))
    ensures totalEpisodes <= 0 ==> r.percentage == 0
    ensures totalEpisodes > 0 ==> r.percentage == RoundedPercentage(r.watched, totalEpisodes)
  {
    match GetShowProgress(t, showId)
    case None => SeasonProgress(0, totalEpisodes, 0)
    case Some(p) =>
      var w := CountWithPrefix(p.watchedEpisodes, SeasonPrefix(season));
      SeasonProgress(w, totalEpisodes, if totalEpisodes > 0 then RoundedPercentage(w, totalEpisodes) else 0)
  }

  /** For two digit strings `a` and `b`, `a-rest` starts with `b-` exactly
      when `a == b`: a digit never stands where the other has its dash. */
  lemma DigitsDashPrefix(a: string, b: string, rest: string)
    requires forall i :: 0 <= i < |a| ==> IsDigit(a[i])
    requires forall i :: 0 <= i < |b| ==> IsDigit(b[i])
    ensures b + "-" <= a + "-" + rest <==> a == b
  {
    var key, prefix := a + "-" + rest, b + "-";
    if |a| == |b| {
      assert key[..|a| + 1] == a + "-";
      if prefix <= key {
        assert b == prefix[..|b|] == key[..|a|] == a;
      }
    } else if |b| < |a| {
      assert key[|b|] == a[|b|] && IsDigit(key[|b|]);
      assert prefix[|b|] == '-';
    } else {
      assert key[|a|] == '-';
      assert prefix[|a|] == b[|a|] && IsDigit(prefix[|a|]);
    }
  }

  /** The prefix test on a decimal key is season equality: the key of an
      episode of season `s` starts with `${q}-` exactly when `s == q`. */
  lemma SeasonPrefixMatch(s: nat, episode: int, q: nat)
    ensures SeasonPrefix(q) <= EpisodeKey(s, episode) <==> s == q
  {
    var a, b := NatToString(s), NatToString(q);
    assert EpisodeKey(s, episode) == a + "-" + IntToString(episode);
    assert SeasonPrefix(q) == b + "-";
    DigitsDashPrefix(a, b, IntToString(episode));
    NatToStringInjective(s, q);
  }

  /** Season 1 does not count the episodes of season 11. */
  lemma SeasonOneIgnoresSeasonEleven(episode: int)
    ensures !(SeasonPrefix(1) <= EpisodeKey(11, episode))
  {
    SeasonPrefixMatch(11, episode, 1);
  }

  /** The keys of a list of (season, episode) pairs. */
  function KeysOf(episodes: seq<(nat, int)>): (r: seq<string>)
    ensures |r| == |episodes|
  {
    if episodes == [] then [] else [EpisodeKey(episodes[0].0, episodes[0].1)] + KeysOf(episodes[1..])
  }

  /** The number of pairs that belong to season `q`. */
  function CountSeason(episodes: seq<(nat, int)>, q: nat): nat {
    if episodes == [] then 0
    else (if episodes[0].0 == q then 1 else 0) + CountSeason(episodes[1..], q)
  }

  /** For non-negative seasons the prefix count of the watched keys is
      exactly the number of watched episodes of that season. */
  lemma {:induction false} SeasonCountExact(episodes: seq<(nat, int)>, q: nat)
    ensures CountWithPrefix(KeysOf(episodes), SeasonPrefix(q)) == CountSeason(episodes, q)
  {
    if episodes != [] {
      SeasonCountExact(episodes[1..], q);
      var keys := KeysOf(episodes);
      assert keys[0] == EpisodeKey(episodes[0].0, episodes[0].1);
      assert keys[1..] == KeysOf(episodes[1..]);
      SeasonPrefixMatch(episodes[0].0, episodes[0].1, q);
    }
  }

  // ---------------------------------------------------------------------
  // The provider

  /** `EpisodeTrackingProvider`'s state cell. */
  class EpisodeTracker {
    var tracking: Tracking

    constructor(tracking: Tracking)
      ensures this.tracking == tracking
    {
      this.tracking := tracking;
    }

    method Update(showId: int, season: int, episode: int, now: int)
      modifies this
      ensures tracking == UpdateProgress(old(tracking), showId, season, episode, now)
    {
      tracking := UpdateProgress(tracking, showId, season, episode, now);
    }

    method MarkWatched(showId: int, season: int, episode: int, now: int)
      modifies this
      ensures tracking == MarkEpisodeWatched(old(tracking), showId, season, episode, now)
    {
      tracking := MarkEpisodeWatched(tracking, showId, season, episode, now);
    }
  }
}
