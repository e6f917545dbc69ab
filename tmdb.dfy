/** The catalog service's URL construction: image URLs and the endpoint
    templates. The requests themselves and the decoding of their answers
    are not modelled. */
module Tmdb {
  import opened Wrappers
  import opened Text

  const BaseUrl: string := "https://api.themoviedb.org/3"
  const ImageBaseUrl: string := "https://image.tmdb.org/t/p"
  const Placeholder: string := "/placeholder.svg"

  datatype MediaType = Movie | Tv

  function MediaPath(m: MediaType): string {
    match m
    case Movie => "movie"
    case Tv => "tv"
  }

  /** The catalog record of a movie or a show, as far as the pages read it;
      an absent or `null` field is `None`. */
  datatype MovieRecord = MovieRecord(
    id: int, title: Option<string>, name: Option<string>, posterPath: Option<string>,
    backdropPath: Option<string>, voteAverage: real, releaseDate: Option<string>, firstAirDate: Option<string>)

  datatype Cast = Cast(id: int, name: string, character: string, profilePath: Option<string>)

  /** A video record; `kind` is the record's `type`. */
  datatype Video = Video(id: string, key: string, name: string, site: string, kind: string)

  /** One episode of a season, as the details page reads it. */
  datatype Episode = Episode(episodeNumber: int, name: string)

  datatype ImageSize = W342 | W780 | Original

  function SizeName(size: ImageSize): string {
    match size
    case W342 => "w342"
    case W780 => "w780"
    case Original => "original"
  }

  /** `getImageUrl(path, size = 'w342')`: the placeholder for a null or
      empty path, otherwise the image base, the size and the path joined. */
  function ImageUrl(path: Option<string>, size: ImageSize := W342): (r: string)
    ensures path.None? || path == Some("") ==> r == Placeholder
    ensures path.Some? && path.value != "" ==> ImageBaseUrl + "/" + SizeName(size) <= r
  {
    if path.None? || path.value == "" then Placeholder
    else ImageBaseUrl + "/" + SizeName(size) + path.value
  }

  /** Reads a size name and the path from the front of the part of an image
      URL after the base. */
  function ParseSized(rest: string): Option<(ImageSize, string)> {
    if "w342" <= rest then Some((W342, rest[4..]))
    else if "w780" <= rest then Some((W780, rest[4..]))
    else if "original" <= rest then Some((Original, rest[8..]))
    else None
  }

  /** Recovers the size and the path from an image URL. */
  function ParseImageUrl(url: string): Option<(ImageSize, string)> {
    var base := ImageBaseUrl + "/";
    if base <= url then ParseSized(url[|base|..]) else None
  }

  /** An image URL for a non-empty path gives back its size and path, and
      is never the placeholder. */
  lemma ImageUrlRoundTrip(path: string, size: ImageSize)
    requires path != ""
    ensures ParseImageUrl(ImageUrl(Some(path), size)) == Some((size, path))
    ensures ImageUrl(Some(path), size) != Placeholder
  {
    var url := ImageUrl(Some(path), size);
    var base := ImageBaseUrl + "/";
    assert url == base + (SizeName(size) + path);
    assert url[|base|..] == SizeName(size) + path;
    assert url[0] == 'h' != Placeholder[0];
    match size
    case W342 =>
      assert (SizeName(size) + path)[4..] == path;
    case W780 =>
      assert "w342"[1] != "w780"[1];
      assert (SizeName(size) + path)[4..] == path;
    case Original =>
      assert "w342"[0] != "original"[0] && "w780"[0] != "original"[0];
      assert (SizeName(size) + path)[8..] == path;
  }

  /** With no size given the image is the 342-pixel rendition. */
  lemma DefaultImageSize(path: string)
    requires path != ""
    ensures ImageUrl(Some(path)) == "https://image.tmdb.org/t/p/w342" + path
  {
  }

  function Query(apiKey: string): string {
    "?api_key=" + apiKey
  }

  /** The resource of one title: `${base}/${mediaType}/${id}`. */
  function TitleResource(id: string, mediaType: MediaType): string {
    BaseUrl + "/" + MediaPath(mediaType) + "/" + id
  }

  /** `getTrending`: `${base}/trending/${mediaType}/week?api_key=${key}`. */
  function TrendingUrl(apiKey: string, mediaType: MediaType := Movie): (r: string)
    ensures BaseUrl + "/trending/" <= r
    ensures BaseUrl + "/trending/" + MediaPath(mediaType) + "/" <= r
    ensures EndsWith(r, "/week" + Query(apiKey))
  {
    var head := BaseUrl + "/trending/" + MediaPath(mediaType);
    assert head + ("/week" + Query(apiKey)) == head + "/week?api_key=" + apiKey;
    head + "/week?api_key=" + apiKey
  }

  /** `getPopular` and `getTopRated`: `${base}/${mediaType}/popular` and
      `/top_rated`, with the key. */
  function PopularUrl(apiKey: string, mediaType: MediaType := Movie): (r: string)
    ensures BaseUrl + "/" + MediaPath(mediaType) <= r
    ensures EndsWith(r, "/popular" + Query(apiKey))
  {
    var head := BaseUrl + "/" + MediaPath(mediaType);
    assert head + ("/popular" + Query(apiKey)) == head + "/popular?api_key=" + apiKey;
    head + "/popular?api_key=" + apiKey
  }

  function TopRatedUrl(apiKey: string, mediaType: MediaType := Movie): (r: string)
    ensures BaseUrl + "/" + MediaPath(mediaType) <= r
    ensures EndsWith(r, "/top_rated" + Query(apiKey))
  {
    var head := BaseUrl + "/" + MediaPath(mediaType);
    assert head + ("/top_rated" + Query(apiKey)) == head + "/top_rated?api_key=" + apiKey;
    head + "/top_rated?api_key=" + apiKey
  }

  /** `getDetails`: `${base}/${mediaType}/${id}?api_key=${key}`. */
  function DetailsUrl(apiKey: string, id: string, mediaType: MediaType := Movie): (r: string)
    ensures TitleResource(id, mediaType) <= r
    ensures EndsWith(r, Query(apiKey))
  {
    var head := BaseUrl + "/" + MediaPath(mediaType) + "/" + id;
    assert head + Query(apiKey) == head + "?api_key=" + apiKey;
    head + "?api_key=" + apiKey
  }

  /** `getCredits`: the title resource with `/credits`. */
  function CreditsUrl(apiKey: string, id: string, mediaType: MediaType := Movie): (r: string)
    ensures TitleResource(id, mediaType) <= r
    ensures EndsWith(r, "/credits" + Query(apiKey))
  {
    var head := BaseUrl + "/" + MediaPath(mediaType) + "/" + id;
    assert head + ("/credits" + Query(apiKey)) == head + "/credits?api_key=" + apiKey;
    head + "/credits?api_key=" + apiKey
  }

  /** `getVideos`: the title resource with `/videos`. */
  function VideosUrl(apiKey: string, id: string, mediaType: MediaType := Movie): (r: string)
    ensures TitleResource(id, mediaType) <= r
    ensures EndsWith(r, "/videos" + Query(apiKey))
  {
    var head := BaseUrl + "/" + MediaPath(mediaType) + "/" + id;
    assert head + ("/videos" + Query(apiKey)) == head + "/videos?api_key=" + apiKey;
    head + "/videos?api_key=" + apiKey
  }

  /** `discoverByGenre`: `${base}/discover/${mediaType}?api_key=${key}&with_genres=${genreId}`. */
  function DiscoverByGenreUrl(apiKey: string, genreId: int, mediaType: MediaType := Movie): (r: string)
    ensures BaseUrl + "/discover/" <= r
    ensures BaseUrl + "/discover/" + MediaPath(mediaType) + Query(apiKey) + "&with_genres=" <= r
    ensures EndsWith(r, "&with_genres=" + IntToString(genreId))
  {
    var head := BaseUrl + "/discover/" + MediaPath(mediaType) + Query(apiKey) + "&with_genres=";
    var genre := IntToString(genreId);
    assert (head + genre)[|head + genre| - |genre|..] == genre;
    head + genre
  }

  /** The three per-title endpoints share one resource and one query: the
      details URL is the resource with the key, and the credits and videos
      URLs put `/credits` and `/videos` between them; the media type
      defaults to `movie`. */
  lemma TitleEndpoints(apiKey: string, id: string, mediaType: MediaType)
    ensures DetailsUrl(apiKey, id, mediaType) == TitleResource(id, mediaType) + Query(apiKey)
    ensures CreditsUrl(apiKey, id, mediaType) == TitleResource(id, mediaType) + "/credits" + Query(apiKey)
    ensures VideosUrl(apiKey, id, mediaType) == TitleResource(id, mediaType) + "/videos" + Query(apiKey)
  {
    var r := TitleResource(id, mediaType);
    assert DetailsUrl(apiKey, id, mediaType) == r + ("?api_key=" + apiKey);
    assert CreditsUrl(apiKey, id, mediaType) == r + ("/credits?api_key=" + apiKey);
    assert "/credits?api_key=" + apiKey == "/credits" + Query(apiKey);
    assert VideosUrl(apiKey, id, mediaType) == r + ("/videos?api_key=" + apiKey);
    assert "/videos?api_key=" + apiKey == "/videos" + Query(apiKey);
  }

  /** Without a media type the endpoints address movies. */
  lemma DefaultMediaType(apiKey: string, id: string)
    ensures DetailsUrl(apiKey, id) == "https://api.themoviedb.org/3/movie/" + id + "?api_key=" + apiKey
    ensures PopularUrl(apiKey) == "https://api.themoviedb.org/3/movie/popular?api_key=" + apiKey
    ensures TopRatedUrl(apiKey) == "https://api.themoviedb.org/3/movie/top_rated?api_key=" + apiKey
  {
    var movie := BaseUrl + "/" + MediaPath(Movie);
    assert movie + "/" == "https://api.themoviedb.org/3/movie/";
    assert movie + "/popular?api_key=" == "https://api.themoviedb.org/3/movie/popular?api_key=";
    assert movie + "/top_rated?api_key=" == "https://api.themoviedb.org/3/movie/top_rated?api_key=";
    assert DetailsUrl(apiKey, id) == (movie + "/") + id + "?api_key=" + apiKey;
    assert PopularUrl(apiKey) == (movie + "/popular?api_key=") + apiKey;
    assert TopRatedUrl(apiKey) == (movie + "/top_rated?api_key=") + apiKey;
  }

  /** Without a media type the trending list is the week's movies. */
  lemma DefaultTrending(apiKey: string)
    ensures TrendingUrl(apiKey) == "https://api.themoviedb.org/3/trending/movie/week?api_key=" + apiKey
  {
    assert BaseUrl + "/trending/" + MediaPath(Movie) + "/week?api_key=" == "https://api.themoviedb.org/3/trending/movie/week?api_key=";
  }

  /** The path of a media type never holds `/`, and the two differ. */
  lemma MediaPathShape(a: MediaType, b: MediaType)
    ensures '/' !in MediaPath(a)
    ensures MediaPath(a) == MediaPath(b) ==> a == b
  {
    assert MediaPath(a)[0] != '/' && MediaPath(b)[0] != '/';
    assert MediaPath(Movie)[0] != MediaPath(Tv)[0];
  }

  /** Different titles have different details URLs: the media type and the
      id can be read back from the URL. */
  lemma DetailsUrlInjective(apiKey: string, id1: string, m1: MediaType, id2: string, m2: MediaType)
    ensures DetailsUrl(apiKey, id1, m1) == DetailsUrl(apiKey, id2, m2) ==> id1 == id2 && m1 == m2
  {
    var u1, u2 := DetailsUrl(apiKey, id1, m1), DetailsUrl(apiKey, id2, m2);
    var t1, t2 := MediaPath(m1) + "/" + id1, MediaPath(m2) + "/" + id2;
    var head := BaseUrl + "/";
    assert u1 == head + t1 + Query(apiKey);
    assert u2 == head + t2 + Query(apiKey);
    StripSuffix(head + t1, head + t2, Query(apiKey));
    StripPrefix(head, t1, t2);
    MediaPathShape(m1, m2);
    MediaPathShape(m2, m1);
    SplitAtSeparator(MediaPath(m1), id1, MediaPath(m2), id2, '/');
  }

  /** Two per-title URLs with the same key query that are equal name the
      same media type, and agree on the id and what follows it. */
  lemma TitleUrlSplit(id1: string, m1: MediaType, s1: string, id2: string, m2: MediaType, s2: string, q: string)
    ensures TitleResource(id1, m1) + s1 + q == TitleResource(id2, m2) + s2 + q ==> m1 == m2 && id1 + s1 == id2 + s2
  {
    var head := BaseUrl + "/";
    var t1, t2 := MediaPath(m1) + "/" + (id1 + s1), MediaPath(m2) + "/" + (id2 + s2);
    assert TitleResource(id1, m1) + s1 == head + t1;
    assert TitleResource(id2, m2) + s2 == head + t2;
    StripSuffix(head + t1, head + t2, q);
    StripPrefix(head, t1, t2);
    MediaPathShape(m1, m2);
    MediaPathShape(m2, m1);
    SplitAtSeparator(MediaPath(m1), id1 + s1, MediaPath(m2), id2 + s2, '/');
  }

  /** With route ids, which never hold `/`, the details, credits and videos
      URLs of any two titles are three different addresses. */
  lemma TitleEndpointsDistinct(apiKey: string, id1: string, m1: MediaType, id2: string, m2: MediaType)
    requires '/' !in id1 && '/' !in id2
    ensures DetailsUrl(apiKey, id1, m1) != CreditsUrl(apiKey, id2, m2)
    ensures DetailsUrl(apiKey, id1, m1) != VideosUrl(apiKey, id2, m2)
    ensures CreditsUrl(apiKey, id1, m1) != VideosUrl(apiKey, id2, m2)
  {
    var q := Query(apiKey);
    TitleEndpoints(apiKey, id1, m1);
    TitleEndpoints(apiKey, id2, m2);
    assert TitleResource(id1, m1) + "" == TitleResource(id1, m1);
    assert id1 + "" == id1;
    TitleUrlSplit(id1, m1, "", id2, m2, "/credits", q);
    TitleUrlSplit(id1, m1, "", id2, m2, "/videos", q);
    TitleUrlSplit(id1, m1, "/credits", id2, m2, "/videos", q);
    assert (id2 + "/credits")[|id2|] == '/' && (id2 + "/videos")[|id2|] == '/';
    assert id1 + "/credits" == id1 + ['/'] + "credits" && id2 + "/videos" == id2 + ['/'] + "videos";
    SplitAtSeparator(id1, "credits", id2, "videos", '/');
    assert "credits" != "videos";
  }

  /** Different genres give different discover URLs. */
  lemma DiscoverUrlInjective(apiKey: string, a: int, b: int, mediaType: MediaType)
    ensures DiscoverByGenreUrl(apiKey, a, mediaType) == DiscoverByGenreUrl(apiKey, b, mediaType) ==> a == b
  {
    var head := BaseUrl + "/discover/" + MediaPath(mediaType) + Query(apiKey) + "&with_genres=";
    StripPrefix(head, IntToString(a), IntToString(b));
    IntToStringInjective(a, b);
  }

  /** Genre pages of different media types, or of different genres, are
      different URLs: the character after `/discover/` is `m` for movies
      and `t` for shows. */
  lemma DiscoverUrlReadBack(apiKey: string, a: int, m1: MediaType, b: int, m2: MediaType)
    ensures DiscoverByGenreUrl(apiKey, a, m1) == DiscoverByGenreUrl(apiKey, b, m2) ==> m1 == m2 && a == b
  {
    var p := BaseUrl + "/discover/";
    var u1, u2 := DiscoverByGenreUrl(apiKey, a, m1), DiscoverByGenreUrl(apiKey, b, m2);
    assert u1[|p|] == MediaPath(m1)[0] by {
      assert p + MediaPath(m1) <= u1;
    }
    assert u2[|p|] == MediaPath(m2)[0] by {
      assert p + MediaPath(m2) <= u2;
    }
    assert MediaPath(Movie)[0] != MediaPath(Tv)[0];
    if u1 == u2 {
      DiscoverUrlInjective(apiKey, a, b, m1);
    }
  }
}
