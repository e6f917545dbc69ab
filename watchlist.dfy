/** The favourites, watchlist and continue-watching lists of
    `WatchlistProvider`. Every update builds a new list from the previous
    one (`some`, `filter`, `map`, spread, `slice`); the provider's three
    state cells are replaced wholesale. `Date.now()` is the parameter `now`. */
module Watchlist {
  import opened Wrappers
  import opened Tmdb

  /** An entry of the favourites or the watchlist. */
  datatype WatchlistItem = WatchlistItem(
    id: int, title: string, posterPath: string, voteAverage: real, mediaType: MediaType, addedAt: int)

  /** An entry of the continue-watching list: a `WatchlistItem` extended
      with the optional season, episode and progress, and the time it was
      last watched. */
  datatype ContinueWatchingItem = ContinueWatchingItem(
    item: WatchlistItem, season: Option<int>, episode: Option<int>, progress: Option<real>, lastWatchedAt: int)

  /** The most entries the continue-watching list keeps. */
  const ContinueWatchingCap: nat := 20

  function ItemId(x: WatchlistItem): int { x.id }

  function EntryId(x: ContinueWatchingItem): int { x.item.id }

  // ---------------------------------------------------------------------
  // Operations shared by all three lists; `idOf` reads an entry's id.

  /** `list.some(i => i.id === id)`. */
  function HasId<T>(list: seq<T>, idOf: T -> int, id: int): (r: bool)
    ensures r <==> exists k :: 0 <= k < |list| && idOf(list[k]) == id
  {
    |list| > 0 && (idOf(list[0]) == id || HasId(list[1..], idOf, id))
  }

  /** No two entries share an id. */
  predicate UniqueIds<T>(list: seq<T>, idOf: T -> int) {
    forall a, b :: 0 <= a < b < |list| ==> idOf(list[a]) != idOf(list[b])
  }

  /** `list.filter(i => i.id !== id)`. */
  function RemoveId<T>(list: seq<T>, idOf: T -> int, id: int): (r: seq<T>)
    ensures |r| <= |list|
    ensures forall k :: 0 <= k < |r| ==> r[k] in list && idOf(r[k]) != id
    ensures forall k :: 0 <= k < |list| && idOf(list[k]) != id ==> list[k] in r
  {
    if list == [] then []
    else (if idOf(list[0]) != id then [list[0]] else []) + RemoveId(list[1..], idOf, id)
  }

  /** Filtering works piecewise, so the surviving entries keep their order. */
  lemma {:induction false} RemoveIdAppend<T>(a: seq<T>, b: seq<T>, idOf: T -> int, id: int)
    ensures RemoveId(a + b, idOf, id) == RemoveId(a, idOf, id) + RemoveId(b, idOf, id)
  {
    if a != [] {
      assert (a + b)[1..] == a[1..] + b;
      RemoveIdAppend(a[1..], b, idOf, id);
    } else {
      assert a + b == b;
    }
  }

  /** Removing an id that is absent returns the list itself. */
  lemma {:induction false} RemoveAbsentId<T>(list: seq<T>, idOf: T -> int, id: int)
    ensures !HasId(list, idOf, id) ==> RemoveId(list, idOf, id) == list
  {
    if list != [] {
      RemoveAbsentId(list[1..], idOf, id);
      assert list == [list[0]] + list[1..];
    }
  }

  /** After a removal no entry carries the id. */
  lemma RemovedIdAbsent<T>(list: seq<T>, idOf: T -> int, id: int)
    ensures !HasId(RemoveId(list, idOf, id), idOf, id)
  {
    var r := RemoveId(list, idOf, id);
    forall k | 0 <= k < |r| ensures idOf(r[k]) != id {
      assert r[k] in r;
    }
  }

  /** On a list with unique ids, removing a present id drops exactly one entry. */
  lemma {:induction false} RemoveIdLength<T>(list: seq<T>, idOf: T -> int, id: int)
    requires UniqueIds(list, idOf)
    ensures |RemoveId(list, idOf, id)| == if HasId(list, idOf, id) then |list| - 1 else |list|
  {
    if list != [] {
      RemoveIdLength(list[1..], idOf, id);
      if idOf(list[0]) == id {
        assert !HasId(list[1..], idOf, id) by {
          forall k | 0 <= k < |list[1..]| ensures idOf(list[1..][k]) != id {
            assert list[1..][k] == list[k + 1];
          }
        }
      } else {
        assert HasId(list, idOf, id) == HasId(list[1..], idOf, id);
      }
    }
  }

  /** Filtering keeps ids unique. */
  lemma {:induction false} RemoveIdKeepsUnique<T>(list: seq<T>, idOf: T -> int, id: int)
    requires UniqueIds(list, idOf)
    ensures UniqueIds(RemoveId(list, idOf, id), idOf)
  {
    if list != [] {
      assert UniqueIds(list[1..], idOf) by {
        forall a, b | 0 <= a < b < |list[1..]| ensures idOf(list[1..][a]) != idOf(list[1..][b]) {
          assert list[1..][a] == list[a + 1] && list[1..][b] == list[b + 1];
        }
      }
      RemoveIdKeepsUnique(list[1..], idOf, id);
      var rest := RemoveId(list[1..], idOf, id);
      forall x | x in rest ensures idOf(x) != idOf(list[0]) {
        var k :| 0 <= k < |list[1..]| && list[1..][k] == x;
        assert list[k + 1] == x;
      }
    }
  }

  // ---------------------------------------------------------------------
  // Favourites and watchlist

  /** `addToFavorites` / `addToWatchlist`: an entry with the same id leaves
      the list as it is; otherwise the item, stamped with `addedAt = now`,
      goes in front of the old list. */
  function AddItem(list: seq<WatchlistItem>, item: WatchlistItem, now: int): (r: seq<WatchlistItem>)
    ensures HasId(r, ItemId, item.id)
    ensures HasId(list, ItemId, item.id) ==> r == list
    ensures !HasId(list, ItemId, item.id) ==> |r| == |list| + 1 && r[0] == item.(addedAt := now) && r[1..] == list
  {
    if HasId(list, ItemId, item.id) then list else [item.(addedAt := now)] + list
  }

  /** Adding keeps ids unique. */
  lemma AddItemKeepsUnique(list: seq<WatchlistItem>, item: WatchlistItem, now: int)
    requires UniqueIds(list, ItemId)
    ensures UniqueIds(AddItem(list, item, now), ItemId)
  {
    var r := AddItem(list, item, now);
    if !HasId(list, ItemId, item.id) {
      forall a, b | 0 <= a < b < |r| ensures ItemId(r[a]) != ItemId(r[b]) {
        assert r[b] == list[b - 1];
        if a > 0 {
          assert r[a] == list[a - 1];
        }
      }
    }
  }

  /** The favourite button's toggle: remove when present, add when absent. */
  function Toggle(list: seq<WatchlistItem>, item: WatchlistItem, now: int): (r: seq<WatchlistItem>)
    ensures HasId(r, ItemId, item.id) <==> !HasId(list, ItemId, item.id)
  {
    if HasId(list, ItemId, item.id) then
      RemovedIdAbsent(list, ItemId, item.id);
      RemoveId(list, ItemId, item.id)
    else AddItem(list, item, now)
  }

  /** Toggling twice from absent gives back the very same list. */
  lemma ToggleTwiceFromAbsent(list: seq<WatchlistItem>, item: WatchlistItem, t1: int, t2: int)
    requires !HasId(list, ItemId, item.id)
    ensures Toggle(Toggle(list, item, t1), item, t2) == list
  {
    var once := Toggle(list, item, t1);
    assert once == [item.(addedAt := t1)] + list;
    RemoveIdAppend([item.(addedAt := t1)], list, ItemId, item.id);
    RemoveAbsentId(list, ItemId, item.id);
  }

  // ---------------------------------------------------------------------
  // Continue watching

  /** `addToContinueWatching`: the item, stamped with `lastWatchedAt = now`,
      in front of the other entries, cut to the first 20. */
  function AddToContinueWatching(list: seq<ContinueWatchingItem>, entry: ContinueWatchingItem, now: int)
    : (r: seq<ContinueWatchingItem>)
    ensures 1 <= |r| <= ContinueWatchingCap
    ensures r[0] == entry.(lastWatchedAt := now)
    ensures forall k :: 1 <= k < |r| ==> EntryId(r[k]) != entry.item.id
    ensures r[1..] <= RemoveId(list, EntryId, entry.item.id)
    ensures |r| == if |RemoveId(list, EntryId, entry.item.id)| < ContinueWatchingCap
                   then |RemoveId(list, EntryId, entry.item.id)| + 1 else ContinueWatchingCap
  {
    var rest := RemoveId(list, EntryId, entry.item.id);
    var all := [entry.(lastWatchedAt := now)] + rest;
    assert forall k :: 1 <= k < |all| ==> all[k] == rest[k - 1] && all[k] in rest;
    if |all| <= ContinueWatchingCap then all else all[..ContinueWatchingCap]
  }

  /** The continue-watching list keeps ids unique. */
  lemma AddToContinueWatchingKeepsUnique(list: seq<ContinueWatchingItem>, entry: ContinueWatchingItem, now: int)
    requires UniqueIds(list, EntryId)
    ensures UniqueIds(AddToContinueWatching(list, entry, now), EntryId)
  {
    var r := AddToContinueWatching(list, entry, now);
    var rest := RemoveId(list, EntryId, entry.item.id);
    RemoveIdKeepsUnique(list, EntryId, entry.item.id);
    forall a, b | 0 <= a < b < |r| ensures EntryId(r[a]) != EntryId(r[b]) {
      if a > 0 {
        assert r[a] == r[1..][a - 1] == rest[a - 1];
        assert r[b] == r[1..][b - 1] == rest[b - 1];
      }
    }
  }

  /** `updateProgress`: every entry with the id gets the new progress,
      season, episode (an absent one overwrites with `undefined`) and
      `lastWatchedAt = now`; all other entries stay. */
  function UpdateProgress(list: seq<ContinueWatchingItem>, id: int, progress: real,
                          season: Option<int>, episode: Option<int>, now: int): (r: seq<ContinueWatchingItem>)
    ensures |r| == |list|
    ensures forall k :: 0 <= k < |list| && EntryId(list[k]) != id ==> r[k] == list[k]
    ensures forall k :: 0 <= k < |list| && EntryId(list[k]) == id ==>
      r[k].item == list[k].item && r[k].progress == Some(progress) &&
      r[k].season == season && r[k].episode == episode && r[k].lastWatchedAt == now
  {
    seq(|list|, k requires 0 <= k < |list| =>
      if list[k].item.id == id
      then list[k].(progress := Some(progress), season := season, episode := episode, lastWatchedAt := now)
      else list[k])
  }

  /** Updating an id that is absent changes nothing. */
  lemma UpdateProgressAbsent(list: seq<ContinueWatchingItem>, id: int, progress: real,
                             season: Option<int>, episode: Option<int>, now: int)
    requires !HasId(list, EntryId, id)
    ensures UpdateProgress(list, id, progress, season, episode, now) == list
  {
  }

  /** Updating keeps every id in place, so uniqueness is kept too. */
  lemma UpdateProgressKeepsIds(list: seq<ContinueWatchingItem>, id: int, progress: real,
                               season: Option<int>, episode: Option<int>, now: int)
    ensures var r := UpdateProgress(list, id, progress, season, episode, now);
      (forall k :: 0 <= k < |r| ==> EntryId(r[k]) == EntryId(list[k])) &&
      (UniqueIds(list, EntryId) ==> UniqueIds(r, EntryId))
  {
  }

  // ---------------------------------------------------------------------
  // The provider

  /** `WatchlistProvider`'s three state cells. */
  class WatchlistStore {
    var favorites: seq<WatchlistItem>
    var watchlist: seq<WatchlistItem>
    var continueWatching: seq<ContinueWatchingItem>

    /** A provider over the lists read back from storage. */
    constructor(favorites: seq<WatchlistItem>, watchlist: seq<WatchlistItem>, continueWatching: seq<ContinueWatchingItem>)
      ensures this.favorites == favorites && this.watchlist == watchlist && this.continueWatching == continueWatching
    {
      this.favorites := favorites;
      this.watchlist := watchlist;
      this.continueWatching := continueWatching;
    }

    function IsFavorite(id: int): (r: bool)
      reads this
      ensures r <==> exists k :: 0 <= k < |favorites| && favorites[k].id == id
    {
      HasId(favorites, ItemId, id)
    }

    function IsInWatchlist(id: int): (r: bool)
      reads this
      ensures r <==> exists k :: 0 <= k < |watchlist| && watchlist[k].id == id
    {
      HasId(watchlist, ItemId, id)
    }

    method AddToFavorites(item: WatchlistItem, now: int)
      modifies this
      ensures favorites == AddItem(old(favorites), item, now)
      ensures watchlist == old(watchlist) && continueWatching == old(continueWatching)
    {
      favorites := AddItem(favorites, item, now);
    }

    method RemoveFromFavorites(id: int)
      modifies this
      ensures favorites == RemoveId(old(favorites), ItemId, id) && !IsFavorite(id)
      ensures watchlist == old(watchlist) && continueWatching == old(continueWatching)
    {
      RemovedIdAbsent(favorites, ItemId, id);
      favorites := RemoveId(favorites, ItemId, id);
    }

    method AddToWatchlist(item: WatchlistItem, now: int)
      modifies this
      ensures watchlist == AddItem(old(watchlist), item, now)
      ensures favorites == old(favorites) && continueWatching == old(continueWatching)
    {
      watchlist := AddItem(watchlist, item, now);
    }

    method RemoveFromWatchlist(id: int)
      modifies this
      ensures watchlist == RemoveId(old(watchlist), ItemId, id) && !IsInWatchlist(id)
      ensures favorites == old(favorites) && continueWatching == old(continueWatching)
    {
      RemovedIdAbsent(watchlist, ItemId, id);
      watchlist := RemoveId(watchlist, ItemId, id);
    }

    method AddToContinueWatchingEntry(entry: ContinueWatchingItem, now: int)
      modifies this
      ensures continueWatching == AddToContinueWatching(old(continueWatching), entry, now)
      ensures favorites == old(favorites) && watchlist == old(watchlist)
    {
      continueWatching := AddToContinueWatching(continueWatching, entry, now);
    }

    method RemoveFromContinueWatching(id: int)
      modifies this
      ensures continueWatching == RemoveId(old(continueWatching), EntryId, id)
      ensures !HasId(continueWatching, EntryId, id)
      ensures favorites == old(favorites) && watchlist == old(watchlist)
    {
      RemovedIdAbsent(continueWatching, EntryId, id);
      continueWatching := RemoveId(continueWatching, EntryId, id);
    }

    method UpdateEntryProgress(id: int, progress: real, season: Option<int>, episode: Option<int>, now: int)
      modifies this
      ensures continueWatching == UpdateProgress(old(continueWatching), id, progress, season, episode, now)
      ensures favorites == old(favorites) && watchlist == old(watchlist)
    {
      continueWatching := UpdateProgress(continueWatching, id, progress, season, episode, now);
    }
  }
}
