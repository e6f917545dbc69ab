# Popcorn, modelled in Dafny

Popcorn is a streaming-catalog web app. This project models its core logic
and proves properties of that model:

- **The in-page ad blocker** (`AdvancedAdBlocker`). It holds a URL
  classifier (`shouldBlock`: whitelist, then URL parse, then same origin,
  then block list) and replaces the browser's `fetch`, `XMLHttpRequest` and
  `window.open` with guarded versions. It also runs a click debouncer, a
  mutation sentinel that removes ad iframes and ad-looking elements, a
  message filter, and an unload check for redirector links. `destroy` puts
  back the saved `fetch` and `XMLHttpRequest`.
- **The watchlist provider**: favourites, watchlist and a continue-watching
  list capped at 20 entries, with add, remove, toggle and progress updates
  keyed by title id.
- **The episode-tracking provider**: one record per show, keyed by the show
  id's decimal string. Each record holds the current season and episode and
  the watched episodes as `"season-episode"` keys. The season progress is a
  prefix count with a rounded percentage.
- **The details page**: the title and year fallbacks, the first six
  credits, the YouTube trailers, the embedded player URL and the "next
  episode" choice. Its button handlers update the two providers.
- **The catalog service's URL templates** and image URLs.
- **Two small UI state machines**: pull-to-refresh (a threshold of 80 and a
  cap of 120) and the install banner (standalone check, 7-day dismissal,
  the install dialog's outcome).

Files:

- `wrappers.dfy`: `Option`.
- `text.dfy`: ASCII lower-casing, `includes`, decimal rendering.
- `ad_blocker.dfy`
- `watchlist.dfy`
- `episode_tracking.dfy`
- `tmdb.dfy`
- `details.dfy`
- `pull_to_refresh.dfy`
- `install_prompt.dfy`

Pure code is modelled as functions with lemmas. State that the source
updates in place is a class whose methods are specified against those
functions:

- the browser globals (`AdBlocker.Window`);
- the guard object (`AdBlocker.AdvancedAdBlocker`);
- the provider state cells (`Watchlist.WatchlistStore`,
  `EpisodeTracking.EpisodeTracker`);
- the page and component state cells (`Details.DetailsPage`,
  `PullToRefresh.PullState`, `InstallPrompt.Banner`).

The clock (`Date.now()`), the URL parser, the display mode, the user agent
test and the install dialog's answer are parameters.

Three points about the guard's code that a reader might not expect:

- `shouldBlock` tests the whitelist before it parses the URL. So an
  unparsable string that holds a whitelist pattern is allowed. Only
  non-whitelisted unparsable strings are blocked.
- Nothing stops a second construction of the guard. It wraps the first
  guard's wrappers (see `AdBlocker.DoubleGuardedFetch`).
- `destroy` restores only `fetch` and `XMLHttpRequest`. It does not
  restore `window.open` and removes no listeners or observers. It has no
  state check either.

## Model

| member | source | states |
|---|---|---|
| `Text.ToLower` | src/lib/adBlocker.ts:70 | lower-casing keeps the length and lowers each character on its own |
| `Text.Includes` | src/lib/adBlocker.ts:73 | `s.includes(p)` holds whenever `p` starts `s`, and never for a pattern longer than the string |
| `Text.IncludesIff` | src/lib/adBlocker.ts:73 | `includes` holds exactly when the pattern occurs at some index of the string |
| `Text.IncludesAny` | src/lib/adBlocker.ts:73 | `patterns.some(p => s.includes(p))` holds exactly when some pattern of the list occurs in the string |
| `Text.NatToString` | src/contexts/EpisodeTrackingContext.tsx:30 | a number's decimal rendering is non-empty and all digits, and has one digit exactly for numbers below 10 |
| `Text.IntToStringInjective` | src/contexts/EpisodeTrackingContext.tsx:30 | different integers have different decimal renderings |
| `AdBlocker.ShouldBlock` | src/lib/adBlocker.ts:69-90 | the decision table of `shouldBlock`: a whitelisted URL is never blocked; a non-whitelisted unparsable one always is; a same-origin URL never is; any other URL is blocked exactly when it holds a block pattern |
| `AdBlocker.WhitelistWins` | src/lib/adBlocker.ts:69-75 | a URL whose lower-case form holds a whitelist pattern is never blocked, whatever else it holds and whether or not it parses |
| `AdBlocker.UnparsableBlocked` | src/lib/adBlocker.ts:78-86 | a string that does not parse is blocked exactly when it holds no whitelist pattern |
| `AdBlocker.SameOriginAllowed` | src/lib/adBlocker.ts:78-82 | a parsable URL with the page's own origin is never blocked |
| `AdBlocker.ForeignOriginVerdict` | src/lib/adBlocker.ts:88-89 | a non-whitelisted URL with a foreign origin is blocked exactly when its lower-case form holds some block pattern |
| `AdBlocker.CaseInsensitiveMatching` | src/lib/adBlocker.ts:70-89 | a substring whose lower-case form is a block pattern (or a whitelist pattern) is caught in any letter case |
| `AdBlocker.ExampleWhitelistedAdPath` | src/lib/adBlocker.ts:69-75 | `https://vidsrc.to/ads/x` is allowed even though it contains `/ads/` |
| `AdBlocker.ExampleMalformedBlocked` | src/lib/adBlocker.ts:78-86 | `not a url` is blocked |
| `AdBlocker.ExampleAdNetworkBlocked` | src/lib/adBlocker.ts:88-89 | `https://doubleclick.net/x` on a foreign origin is blocked |
| `AdBlocker.Fetch` | src/lib/adBlocker.ts:92-103 | through any chain of wrappers, a fetch rejects with "Blocked by ad blocker" exactly when a wrapper is present and the URL is blocked; otherwise the browser's fetch gets the identical arguments |
| `AdBlocker.DoubleGuardedFetch` | src/lib/adBlocker.ts:92-103 | wrapping an already wrapped fetch again changes no outcome |
| `AdBlocker.XhrOpen` | src/lib/adBlocker.ts:105-126 | a guarded request's `open` for a blocked URL is not forwarded; any other `open` reaches the browser's with the same method, URL and remaining arguments |
| `AdBlocker.WindowOpen` | src/lib/adBlocker.ts:128-142 | the guarded `window.open` returns null for any URL other than empty or `about:blank`, and forwards the call unchanged otherwise |
| `AdBlocker.AdvancedAdBlocker.constructor` | src/lib/adBlocker.ts:52-67 | saves the current fetch and XMLHttpRequest, installs the three wrappers and the four hooks, and leaves the document alone |
| `AdBlocker.AdvancedAdBlocker.Destroy` | src/lib/adBlocker.ts:262-267 | puts back exactly the saved fetch and XMLHttpRequest and touches no other global |
| `AdBlocker.AdvancedAdBlocker.OnClick` | src/lib/adBlocker.ts:184-211 | a click under 100 ms after the last accepted one is cancelled and keeps the timestamp; any other click records its time and is cancelled exactly when it lands on an anchor whose href is blocked |
| `AdBlocker.AdvancedAdBlocker.OnMutations` | src/lib/adBlocker.ts:213-248 | the document loses exactly the added elements that fail the iframe or keyword test |
| `AdBlocker.IsBlockedIframe` | src/lib/adBlocker.ts:221-228 | only an `IFRAME` whose `src` holds no whitelist pattern can count as an ad iframe; a same-origin `src` never does; for an `IFRAME` with a non-empty, non-whitelisted `src`, an unparsable `src` always counts and one of a foreign origin counts exactly when its lower-cased form holds a block pattern |
| `AdBlocker.HasAdKeyword` | src/lib/adBlocker.ts:231-235 | the test holds exactly when some keyword occurs in the lower-cased class name or id; an element without class name and id is never taken for ad furniture; one whose lower-cased class name or id holds `ad` always is |
| `AdBlocker.ShouldRemove` | src/lib/adBlocker.ts:217-235 | non-element nodes are never removed; an element with neither class name nor id that is not an iframe with a `src` is kept; an element whose class name or id holds `ad` is removed, and so is every element that fails the iframe test |
| `AdBlocker.RemovedBy` | src/lib/adBlocker.ts:213-248 | the batch removes every node that any one of its records would remove |
| `AdBlocker.RemovedNodes` | src/lib/adBlocker.ts:215-239 | the removed keys of one record are exactly those of its added nodes that fail a test |
| `AdBlocker.RemovedByIff` | src/lib/adBlocker.ts:213-248 | an element is removed exactly when some record of the batch added it and it fails a test |
| `AdBlocker.KeywordFalsePositive` | src/lib/adBlocker.ts:231-235 | an element with class `page-header` is removed, because it holds `ad` |
| `AdBlocker.AdNetworkIframeRemoved` | src/lib/adBlocker.ts:221-228 | an iframe from an ad network on a foreign origin is removed |
| `AdBlocker.WhitelistedAdIframeKept` | src/lib/adBlocker.ts:221-235 | an iframe from `https://vidsrc.to/ads/x`, with no class name or id, is kept although its path holds `/ads/` |
| `AdBlocker.MessageSuppressed` | src/lib/adBlocker.ts:250-260 | a message whose lower-cased origin parses to the page's origin, or holds a whitelist pattern, always gets through; otherwise an unparsable origin is always suppressed, and a foreign one exactly when it holds a block pattern |
| `AdBlocker.SameOriginMessagePasses` | src/lib/adBlocker.ts:250-260 | a message from the page's own origin is never suppressed |
| `AdBlocker.NullOriginMessageSuppressed` | src/lib/adBlocker.ts:250-260 | messages from a sandboxed frame (origin `null`) are all suppressed |
| `AdBlocker.UnloadCancelled` | src/lib/adBlocker.ts:160-166 | an unload is cancelled exactly when the focused href is non-empty and holds a redirector pattern, with case-sensitive matching |
| `Watchlist.HasId` | src/contexts/WatchlistContext.tsx:53-55 | holds exactly when some entry carries the id |
| `Watchlist.RemoveId` | src/contexts/WatchlistContext.tsx:49-51 | the result keeps exactly the entries without the id |
| `Watchlist.RemoveIdAppend` | src/contexts/WatchlistContext.tsx:49-51 | the filter works piecewise, so surviving entries keep their order |
| `Watchlist.RemoveAbsentId` | src/contexts/WatchlistContext.tsx:49-51 | removing an absent id returns the list itself |
| `Watchlist.RemovedIdAbsent` | src/contexts/WatchlistContext.tsx:49-51 | after a removal no entry carries the id |
| `Watchlist.RemoveIdLength` | src/contexts/WatchlistContext.tsx:49-51 | with unique ids, removing a present id drops exactly one entry |
| `Watchlist.RemoveIdKeepsUnique` | src/contexts/WatchlistContext.tsx:49-51 | removal keeps ids unique |
| `Watchlist.AddItem` | src/contexts/WatchlistContext.tsx:42-47 | a present id leaves the list unchanged; otherwise the item, stamped with the current time, goes in front of the old list |
| `Watchlist.AddItemKeepsUnique` | src/contexts/WatchlistContext.tsx:42-47 | adding keeps ids unique |
| `Watchlist.Toggle` | src/pages/Details.tsx:222-243 | the toggle flips whether the id is in the list |
| `Watchlist.ToggleTwiceFromAbsent` | src/pages/Details.tsx:222-243 | toggling twice, starting from absent, gives back the very same list |
| `Watchlist.AddToContinueWatching` | src/contexts/WatchlistContext.tsx:72-77 | the stamped entry comes first, no later entry has its id, the rest is a prefix of the other entries in order, and the length is capped at 20 |
| `Watchlist.AddToContinueWatchingKeepsUnique` | src/contexts/WatchlistContext.tsx:72-77 | continue watching keeps ids unique |
| `Watchlist.UpdateProgress` | src/contexts/WatchlistContext.tsx:83-91 | entries with the id get the new progress, season, episode and time; every other entry stays as it was |
| `Watchlist.UpdateProgressAbsent` | src/contexts/WatchlistContext.tsx:83-91 | updating an absent id changes nothing |
| `Watchlist.UpdateProgressKeepsIds` | src/contexts/WatchlistContext.tsx:83-91 | updating keeps every id in place, and so keeps ids unique |
| `Watchlist.WatchlistStore.constructor` | src/contexts/WatchlistContext.tsx:38-40 | the three lists start as the stored ones |
| `Watchlist.WatchlistStore.IsFavorite` | src/contexts/WatchlistContext.tsx:53-55 | true exactly when a favourite carries the id |
| `Watchlist.WatchlistStore.IsInWatchlist` | src/contexts/WatchlistContext.tsx:68-70 | true exactly when a watchlist entry carries the id |
| `Watchlist.WatchlistStore.AddToFavorites` | src/contexts/WatchlistContext.tsx:42-47 | replaces the favourites by the added list and leaves the other two lists alone |
| `Watchlist.WatchlistStore.RemoveFromFavorites` | src/contexts/WatchlistContext.tsx:49-51 | filters the favourites, after which the id is no favourite; the other lists stay |
| `Watchlist.WatchlistStore.AddToWatchlist` | src/contexts/WatchlistContext.tsx:57-62 | replaces the watchlist by the added list and leaves the other two alone |
| `Watchlist.WatchlistStore.RemoveFromWatchlist` | src/contexts/WatchlistContext.tsx:64-66 | filters the watchlist, after which the id is not in it; the other lists stay |
| `Watchlist.WatchlistStore.AddToContinueWatchingEntry` | src/contexts/WatchlistContext.tsx:72-77 | replaces continue watching by the capped list with the entry in front |
| `Watchlist.WatchlistStore.RemoveFromContinueWatching` | src/contexts/WatchlistContext.tsx:79-81 | filters continue watching, after which the id is absent from it |
| `Watchlist.WatchlistStore.UpdateEntryProgress` | src/contexts/WatchlistContext.tsx:83-91 | replaces continue watching by the updated list |
| `EpisodeTracking.ShowKey` | src/contexts/EpisodeTrackingContext.tsx:30 | a show's key is never empty, and is all digits for a non-negative id |
| `EpisodeTracking.EpisodeKey` | src/contexts/EpisodeTrackingContext.tsx:48 | an episode's key starts with its season's prefix and ends with the episode number |
| `EpisodeTracking.SeasonPrefix` | src/contexts/EpisodeTrackingContext.tsx:77 | a season prefix is at least two characters and ends in `-` |
| `EpisodeTracking.ShowKeyInjective` | src/contexts/EpisodeTrackingContext.tsx:30 | different shows have different keys |
| `EpisodeTracking.GetShowProgress` | src/contexts/EpisodeTrackingContext.tsx:25-27 | null exactly for an untracked show, otherwise its record |
| `EpisodeTracking.UpdateProgress` | src/contexts/EpisodeTrackingContext.tsx:29-43 | the show gains or keeps a record with the new season, episode and time and its old watched list (empty when new); every other show stays |
| `EpisodeTracking.MarkEpisodeWatched` | src/contexts/EpisodeTrackingContext.tsx:45-63 | an already watched episode changes nothing, not even the current position; otherwise its key is appended and the position moves to it |
| `EpisodeTracking.IsEpisodeWatched` | src/contexts/EpisodeTrackingContext.tsx:65-70 | false for an untracked show; otherwise whether the episode's key is in the watched list |
| `EpisodeTracking.MarkThenWatched` | src/contexts/EpisodeTrackingContext.tsx:45-70 | a marked episode reads as watched, and marking it again changes nothing |
| `EpisodeTracking.MarkLeavesOtherShows` | src/contexts/EpisodeTrackingContext.tsx:45-63 | marking leaves every other show's record as it was |
| `EpisodeTracking.UpdatesKeepWatchedUnique` | src/contexts/EpisodeTrackingContext.tsx:29-63 | both updates keep every watched list free of duplicates |
| `EpisodeTracking.CountWithPrefix` | src/contexts/EpisodeTrackingContext.tsx:76-78 | the count is at most the list's length; it is 0 exactly when no key has the prefix, and the full length exactly when every key has it |
| `EpisodeTracking.RoundedPercentage` | src/contexts/EpisodeTrackingContext.tsx:83 | the percentage is `watched/total*100` rounded half up |
| `EpisodeTracking.PercentageBounds` | src/contexts/EpisodeTrackingContext.tsx:83 | with watched at most total the percentage lies in 0..100, is 0 for none watched and 100 for all |
| `EpisodeTracking.GetSeasonProgress` | src/contexts/EpisodeTrackingContext.tsx:72-85 | the total is the one passed in; an untracked show has 0 watched and 0 %; otherwise watched is the prefix count and the percentage its rounding, 0 for a zero total |
| `EpisodeTracking.SeasonPrefixMatch` | src/contexts/EpisodeTrackingContext.tsx:76-78 | the key of an episode of season `s` starts with `${q}-` exactly when `s == q` |
| `EpisodeTracking.SeasonOneIgnoresSeasonEleven` | src/contexts/EpisodeTrackingContext.tsx:76-78 | season 1's count does not pick up episodes of season 11 |
| `EpisodeTracking.SeasonCountExact` | src/contexts/EpisodeTrackingContext.tsx:76-78 | for non-negative seasons the prefix count is exactly the number of watched episodes of that season |
| `EpisodeTracking.EpisodeTracker.constructor` | src/contexts/EpisodeTrackingContext.tsx:23 | the tracking starts as the stored map |
| `EpisodeTracking.EpisodeTracker.Update` | src/contexts/EpisodeTrackingContext.tsx:29-43 | replaces the tracking by its progress update |
| `EpisodeTracking.EpisodeTracker.MarkWatched` | src/contexts/EpisodeTrackingContext.tsx:45-63 | replaces the tracking by its watched-marking |
| `Tmdb.ImageUrl` | src/services/tmdb.ts:37-40 | a null or empty path gives the placeholder; any other path gives a URL under the image base and the size |
| `Tmdb.ImageUrlRoundTrip` | src/services/tmdb.ts:37-40 | the size and path can be read back from any image URL of a non-empty path, and that URL is never the placeholder |
| `Tmdb.DefaultImageSize` | src/services/tmdb.ts:37 | without a size the image is the `w342` rendition |
| `Tmdb.TrendingUrl` | src/services/tmdb.ts:43-46 | the trending URL lies under `${base}/trending/` followed by the media type's path segment and `/`, and ends with `/week` and the key query |
| `Tmdb.PopularUrl` | src/services/tmdb.ts:53-56 | the popular URL lies under the media type's resource and ends with `/popular` and the key query |
| `Tmdb.TopRatedUrl` | src/services/tmdb.ts:63-66 | the top-rated URL lies under the media type's resource and ends with `/top_rated` and the key query |
| `Tmdb.DetailsUrl` | src/services/tmdb.ts:73-76 | the details URL lies under the title's resource and ends with the key query |
| `Tmdb.CreditsUrl` | src/services/tmdb.ts:82-85 | the credits URL lies under the title's resource and ends with `/credits` and the key query |
| `Tmdb.VideosUrl` | src/services/tmdb.ts:92-95 | the videos URL lies under the title's resource and ends with `/videos` and the key query |
| `Tmdb.DiscoverByGenreUrl` | src/services/tmdb.ts:112-119 | the discover URL lies under `${base}/discover/` followed by the media type's path segment, the key query and `&with_genres=`, and ends with `&with_genres=` and the genre id |
| `Tmdb.DiscoverUrlReadBack` | src/services/tmdb.ts:112-119 | equal genre-page URLs for one key mean the same media type and the same genre |
| `Tmdb.TitleEndpoints` | src/services/tmdb.ts:73-95 | details, credits and videos share one title resource and one key query; credits and videos put `/credits` and `/videos` between them |
| `Tmdb.DefaultMediaType` | src/services/tmdb.ts:53-76 | without a media type, details, popular and top-rated address movies |
| `Tmdb.DefaultTrending` | src/services/tmdb.ts:43-46 | without a media type the trending list is the week's movies |
| `Tmdb.DetailsUrlInjective` | src/services/tmdb.ts:73-76 | equal details URLs name the same media type and the same id |
| `Tmdb.TitleUrlSplit` | src/services/tmdb.ts:73-95 | two equal per-title URLs with the same key agree on the media type and on the id with what follows it |
| `Tmdb.TitleEndpointsDistinct` | src/services/tmdb.ts:73-95 | for ids without `/`, no details URL is a credits or videos URL, and no credits URL is a videos URL |
| `Tmdb.DiscoverUrlInjective` | src/services/tmdb.ts:112-119 | different genres give different discover URLs |
| `Details.DisplayTitle` | src/pages/Details.tsx:135 | the title is never empty: the title, else the name, else "Unknown Title" |
| `Details.BeforeFirstDash` | src/pages/Details.tsx:136 | `split("-")[0]` is the longest prefix without a dash |
| `Details.ReleaseYear` | src/pages/Details.tsx:136 | the year shown is never empty; it is the release date's part before the first dash when that is non-empty, else the first air date's, else "N/A" |
| `Details.YearOfFirstAirDate` | src/pages/Details.tsx:136 | a show without a release date shows the year of its first air date `yyyy-mm-dd` |
| `Details.BeforeFirstDashOfJoin` | src/pages/Details.tsx:136 | cutting `a-b` at the first dash gives `a` when `a` has no dash |
| `Details.YearOfIsoDate` | src/pages/Details.tsx:136 | the year of a release date `yyyy-mm-dd` is `yyyy` |
| `Details.TopCast` | src/pages/Details.tsx:60 | the cast shown is the first six credits, in order (all of them when fewer) |
| `Details.Trailers` | src/pages/Details.tsx:61 | the videos kept are exactly the YouTube trailers |
| `Details.TrailersAppend` | src/pages/Details.tsx:61 | the filter works piecewise, so trailers keep their order |
| `Details.TrailersIdempotent` | src/pages/Details.tsx:61 | filtering again changes nothing |
| `Details.PlayerUrl` | src/pages/Details.tsx:143-148 | every player URL lies under the `vidsrc.to` embed base, a show's under `embed/tv/` and a movie's under `embed/movie/` |
| `Details.PlayerUrlNeverBlocked` | src/pages/Details.tsx:143-148 | the ad blocker allows every player URL, for any page origin and any URL parser |
| `Details.PlayerIframeKept` | src/pages/Details.tsx:143-148 | the mutation sentinel keeps any element whose `src` is a player URL and whose class name and id hold no ad keyword |
| `Details.PlayerUrlInjective` | src/pages/Details.tsx:143-148 | different shows, seasons or episodes get different player URLs |
| `Details.MoviePlayerUrlInjective` | src/pages/Details.tsx:143-148 | different movies get different player URLs |
| `Details.TvUrlNeverMovieUrl` | src/pages/Details.tsx:143-148 | a show's player URL is never a movie's |
| `Details.FindEpisodeIndex` | src/pages/Details.tsx:196 | `findIndex` gives the first index holding the number, or -1 when none does |
| `Details.NextEpisode` | src/pages/Details.tsx:195-210 | the episode after the current one; the first when the current number is not in the season; none after the last or in an empty season |
| `Details.NextInNumberedSeason` | src/pages/Details.tsx:195-210 | in a season numbered 1, 2, … the next after `n` is `n + 1`, and the last has none |
| `Details.DetailsPage.constructor` | src/pages/Details.tsx:36-46 | season 1, episode 1, no player, no record, loading |
| `Details.DetailsPage.CurrentPlayerUrl` | src/pages/Details.tsx:143-148 | a show plays the selected season and episode; a movie plays the title |
| `Details.DetailsPage.DetailsLoaded` | src/pages/Details.tsx:48-79 | a loaded record is kept with the first six credits and the trailers; a show with tracked progress resumes its season and episode; loading ends |
| `Details.DetailsPage.EpisodesLoaded` | src/pages/Details.tsx:82-100 | a show's loaded season replaces the episodes and selects episode 1, which also overrides a resumed episode |
| `Details.DetailsPage.SelectSeason` | src/pages/Details.tsx:441 | the picked season becomes the selected one |
| `Details.DetailsPage.HandlePlayClick` | src/pages/Details.tsx:150-173 | shows the player, records a show's position, and puts the title at the front of continue watching |
| `Details.DetailsPage.HandleEpisodeClick` | src/pages/Details.tsx:175-182 | selects the episode, shows the player and records it as the show's position |
| `Details.DetailsPage.HandleMarkWatched` | src/pages/Details.tsx:184-193 | with an id, marks the episode of the selected season watched, after which it reads as watched |
| `Details.DetailsPage.HandleNextEpisode` | src/pages/Details.tsx:195-210 | plays and records the episode `NextEpisode` picks, or reports the season complete and changes nothing |
| `Details.DetailsPage.HandleStartFromBeginning` | src/pages/Details.tsx:212-220 | season 1, episode 1, player shown, and the show's position reset to it |
| `Details.DetailsPage.HandleToggleFavorite` | src/pages/Details.tsx:222-243 | without record, id or media type nothing changes; otherwise favourite membership flips and the other lists stay |
| `Details.DetailsPage.HandleToggleWatchlist` | src/pages/Details.tsx:245-266 | the same toggle on the watchlist |
| `PullToRefresh.ShowIndicator` | src/components/PullToRefresh.tsx:66 | the indicator shows exactly when the pull exceeds the minimum; so any pull past the threshold is on screen, and a cleared pull is not |
| `PullToRefresh.Label` | src/components/PullToRefresh.tsx:90-95 | "Refreshing..." while refreshing, else "Release to refresh" exactly above the threshold, else "Pull to refresh" |
| `PullToRefresh.ReleaseLabelShown` | src/components/PullToRefresh.tsx:66-95 | whenever the label says "Release to refresh", the indicator is on screen and the pull lies in (80, 120] |
| `PullToRefresh.PullState.constructor` | src/components/PullToRefresh.tsx:9-11 | all three cells start at 0 / false / 0 |
| `PullToRefresh.PullState.TouchStart` | src/components/PullToRefresh.tsx:20-24 | the start is recorded only at scroll position 0 |
| `PullToRefresh.PullState.TouchMove` | src/components/PullToRefresh.tsx:26-36 | ignored while refreshing or with no recorded start (a start at 0 counts as none); a downward move at the top prevents scrolling and draws the pull capped at 120; the pull stays within 0..120 |
| `PullToRefresh.PullState.TouchEnd` | src/components/PullToRefresh.tsx:38-52 | a pull past 80 while idle starts a refresh; any other release clears the pull and the start |
| `PullToRefresh.PullState.RefreshSettled` | src/components/PullToRefresh.tsx:41-47 | whether the refresh was fulfilled or rejected, everything is reset |
| `InstallPrompt.DismissalActive` | src/components/InstallPrompt.tsx:21-26 | a stored dismissal suppresses the banner exactly while fewer than 604,800,000 ms have passed |
| `InstallPrompt.Banner.Renders` | src/components/InstallPrompt.tsx:70 | the banner renders exactly when it is raised and the app is not installed |
| `InstallPrompt.Banner.constructor` | src/components/InstallPrompt.tsx:8-11 | no prompt, nothing shown, not installed, no timer or listener |
| `InstallPrompt.Banner.Mount` | src/components/InstallPrompt.tsx:13-49 | standalone mode marks the app installed so nothing renders; a recent dismissal stops the effect; otherwise the platform is recorded and the timer and listener are armed |
| `InstallPrompt.Banner.Unmount` | src/components/InstallPrompt.tsx:45-48 | the cleanup clears the timer and removes the listener |
| `InstallPrompt.Banner.TimerFired` | src/components/InstallPrompt.tsx:33-35 | a pending timer raises the banner |
| `InstallPrompt.Banner.BeforeInstallPrompt` | src/components/InstallPrompt.tsx:38-43 | while listening, the event's default is prevented and the event is kept |
| `InstallPrompt.Banner.HandleInstall` | src/components/InstallPrompt.tsx:51-63 | a no-op without a deferred prompt; an accepted install hides the banner and marks installed; either answer clears the deferred prompt |
| `InstallPrompt.Banner.HandleDismiss` | src/components/InstallPrompt.tsx:65-68 | hides the banner and stores the time, so for the next seven days the dismissal is active |

## Left out

- URL parsing: `new URL(url).origin` is the function value `originOf`, where `None` stands for the thrown `TypeError`. The WHATWG parser itself is not modelled.
- Lower-casing is ASCII-only. `toLowerCase` on other Unicode letters is not modelled.
- `AdBlocker.XhrOpen`: object identity of the `XMLHttpRequest` instances is not modelled. Only the outcome of `open` is: forwarded or skipped. A `URL` object passed as the URL is given by its `toString()`, and the remaining arguments by their string forms.
- The `window.location` setter override (src/lib/adBlocker.ts:168-181) is left out. It depends on the engine and may not install at all.
- The Promise of a blocked fetch is modelled as the value `Rejected(message)`. `preventDefault`, `stopPropagation` and `stopImmediatePropagation` become returned booleans. Logging is dropped.
- The MutationObserver's delivery and the DOM tree are not modelled. The document is the set of attached element keys, and removing an element does not model its subtree.
- The unused `clickListeners` field of the guard is left out.
- `useLocalStorage` persistence and React's batching are not modelled. Updates run one after another, so the stale `tracking` snapshot in the episode-tracking updates cannot lose a write here.
- `Watchlist.UpdateProgress`: the progress is a `real`. JavaScript number semantics are not modelled.
- `EpisodeTracking.RoundedPercentage` is the exact integer form of `Math.round((w/t)*100)`. Floating-point error is not modelled.
- The catalog service's network calls, response checks and JSON decoding are left out; only URLs are modelled. `search` is left out because it depends on `encodeURIComponent`.
- `getSeasonDetails` and the `Episode` type are imported by the details page but do not appear in src/services/tmdb.ts. The model defines `Tmdb.Episode` with the two fields the page reads. The season request is not part of this model; its result arrives through `Details.DetailsPage.EpisodesLoaded`.
- Details page, route id: the id is a string (`""` when absent), and its `parseInt` is the given `showId`. The NaN path is not modelled.
- Details page, rendering: the loading, not-found and missing-keys screens, the progress bar and the iframe are not modelled. Toasts and scrolling are returned as reports or dropped.
- Details page, effects: the effects are the two methods `DetailsLoaded` and `EpisodesLoaded`, called in whichever order the requests settle. Their race, where a loaded season resets a resumed episode to 1, shows up as that order, not as timing.
- Pull-to-refresh: `pullPercentage`, the opacity and the rotation are left out. Positions are exact reals, not JavaScript numbers. The listeners' re-registration on every state change is not modelled.
- Install banner: the stored dismissal is modelled as a number. `parseInt` of a malformed stored string (NaN) is not modelled. The user agent's `iPad|iPhone|iPod` test is the parameter `iOS`. The 10-second timer is the event method `TimerFired`.
- Install banner: the `Install` page repeats the same flow and is left out.
