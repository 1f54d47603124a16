/** The `UnsplashAPI` class of the enhanced page (app-enhanced.js): the
    24-hour photo cache kept in one localStorage entry, the decision
    `searchPhotos` makes between that cache, a fetched result page and
    generated placeholder photos, and the placeholder generator itself.
    The network, the clock and `Math.random` are inputs. */
module Unsplash {
  import opened Wrappers
  import opened Numerals
  import opened Photos

  const CacheDurationMs := 86400000

  /** The cities and photographer names the placeholders cycle through. */
  const Cities: seq<string> :=
    ["Paris", "Tokyo", "New York", "Londres", "Rome", "Barcelona", "Sydney", "Dubai", "Berlin", "Amsterdam"]
  const Photographers: seq<string> :=
    ["Marie L.", "Jean D.", "Sophie M.", "Pierre R.", "Emma B.", "Lucas T.", "Chloé P.", "Thomas W."]

  /** `Math.floor(Math.random() * 500)`. */
  type LikesDraw = n: int | 0 <= n < 500

  /** The random values one placeholder record takes: its creation instant
      (`Date.now()` less up to a week, in milliseconds) and its likes. */
  datatype RandomDraw = RandomDraw(createdAt: int, likes: LikesDraw)

  /** The city of record `i`: the table read cyclically. */
  function CityOf(i: nat): string {
    Cities[i % 10]
  }

  /** The photographer of record `i`: the table read cyclically. */
  function PhotographerOf(i: nat): string {
    Photographers[i % 8]
  }

  /** A picsum.photos image seeded by `seed`, at the given size. */
  function SeededUrl(seed: string, size: string): (u: string)
    ensures |u| == 27 + |seed| + 1 + |size|
    ensures u[..27] == "https://picsum.photos/seed/"
    ensures u[27..27 + |seed|] == seed
    ensures u[27 + |seed|..] == "/" + size
  {
    "https://picsum.photos/seed/" + seed + "/" + size
  }

  /** The placeholder record at index `i`. */
  function PlaceholderPhoto(i: nat, draw: RandomDraw): (p: Photo)
    ensures p.id == "placeholder-" + IntToString(i)
    ensures p.urls == Urls(SeededUrl(IntToString(i), "800/600"), SeededUrl(IntToString(i), "400/300"),
                           Some(SeededUrl(IntToString(i), "600/400")))
    ensures p.user == User(PhotographerOf(i), "user" + IntToString(i), Some("https://i.pravatar.cc/150?img=" + IntToString(i)))
    ensures p.location == Location(CityOf(i), Some("France"))
    ensures p.description == "Belle photo de " + p.location.city
    ensures p.altDescription == Some("Photo urbaine de " + p.location.city)
    ensures p.downloadLocation == Some("#")
    ensures p.createdAt == draw.createdAt && p.likes == draw.likes && 0 <= p.likes < 500
  {
    var n := IntToString(i);
    var city := CityOf(i);
    Photo(
      "placeholder-" + n,
      Urls(SeededUrl(n, "800/600"), SeededUrl(n, "400/300"), Some(SeededUrl(n, "600/400"))),
      User(PhotographerOf(i), "user" + n, Some("https://i.pravatar.cc/150?img=" + n)),
      Location(city, Some("France")),
      draw.createdAt,
      draw.likes,
      "Belle photo de " + city,
      Some("Photo urbaine de " + city),
      Some("#"))
  }

  /** `UnsplashAPI.generatePlaceholderPhotos(count)`; `draw(i)` are the
      random values of record `i`. */
  function GeneratePlaceholderPhotos(count: int, draw: nat -> RandomDraw): (r: seq<Photo>)
    ensures |r| == ArrayLength(count)
    ensures forall i :: 0 <= i < |r| ==> r[i] == PlaceholderPhoto(i, draw(i))
  {
    seq(ArrayLength(count), i requires 0 <= i => PlaceholderPhoto(i, draw(i)))
  }

  /** Placeholder ids are pairwise distinct. */
  lemma PlaceholderIdsDistinct(count: int, draw: nat -> RandomDraw, i: nat, j: nat)
    requires i < j < |GeneratePlaceholderPhotos(count, draw)|
    ensures GeneratePlaceholderPhotos(count, draw)[i].id != GeneratePlaceholderPhotos(count, draw)[j].id
  {
    var r := GeneratePlaceholderPhotos(count, draw);
    var p := "placeholder-";
    if r[i].id == r[j].id {
      assert (p + IntToString(i))[|p|..] == IntToString(i);
      assert (p + IntToString(j))[|p|..] == IntToString(j);
      IntToStringInjective(i, j);
    }
  }

  /** A record depends only on its index: a shorter list is a prefix of a
      longer one drawn with the same random values. */
  lemma PlaceholderPrefix(m: nat, n: nat, draw: nat -> RandomDraw)
    requires m <= n
    ensures GeneratePlaceholderPhotos(m, draw) == GeneratePlaceholderPhotos(n, draw)[..m]
  {
  }

  /** Each city comes back every ten records, and ten consecutive records
      show every city. */
  lemma CitiesCycle(i: nat)
    ensures CityOf(i + 10) == CityOf(i)
    ensures forall c :: c in Cities ==> exists k :: i <= k < i + 10 && CityOf(k) == c
  {
    assert (i + 10) % 10 == i % 10;
    forall c | c in Cities ensures exists k :: i <= k < i + 10 && CityOf(k) == c {
      var j :| 0 <= j < 10 && Cities[j] == c;
      var k := i + (j - i % 10 + 10) % 10;
      assert k % 10 == j;
      assert CityOf(k) == c;
    }
  }

  /** The one localStorage entry the cache uses, as `JSON.parse` would see
      it: no entry (or an empty one), text that does not parse or parses to
      `null`, or an object whose `timestamp` and `photos` may be missing. */
  datatype CacheEntry =
    | NoEntry
    | Unparseable
    | Record(timestamp: Option<int>, photos: Option<seq<Photo>>)

  /** `UnsplashAPI.loadCache` at instant `now`: the stored photos when the
      entry is a record stamped less than 24 hours before `now`, `None` (a
      null or undefined cache) otherwise. */
  function LoadCache(entry: CacheEntry, now: int): (r: Option<seq<Photo>>)
    ensures r.Some? <==> entry.Record? && entry.timestamp.Some? && now - entry.timestamp.value < CacheDurationMs && entry.photos.Some?
    ensures r.Some? ==> r == entry.photos
  {
    match entry
    case NoEntry => None
    case Unparseable => None
    case Record(timestamp, photos) =>
      if timestamp.Some? && now - timestamp.value < CacheDurationMs then photos else None
  }

  /** What `saveCache(photos)` stores at instant `now`. */
  function SavedEntry(photos: seq<Photo>, now: int): (e: CacheEntry)
    ensures e.Record? && e.timestamp == Some(now) && e.photos == Some(photos)
    ensures LoadCache(e, now) == Some(photos)
  {
    Record(Some(now), Some(photos))
  }

  /** A saved page loads back unchanged for the next 24 hours and not a
      millisecond longer. */
  lemma LoadAfterSave(photos: seq<Photo>, savedAt: int, now: int)
    ensures LoadCache(SavedEntry(photos, savedAt), now) == (if now < savedAt + CacheDurationMs then Some(photos) else None)
  {
  }

  /** What the fetch in `searchPhotos` came to: a successful response whose
      JSON has a `results` array, or anything that throws (a network
      error, a non-OK status, a body that is not JSON or has no
      `results`). */
  datatype FetchOutcome = Fetched(results: seq<Photo>) | Failed

  /** What one call of `searchPhotos` does: the photos it returns, whether
      it sends the search request, the download locations it pings (in
      order), and the photos it writes to the cache. */
  datatype SearchResult = SearchResult(
    photos: seq<Photo>,
    requested: bool,
    downloadPings: seq<string>,
    cacheWrite: Option<seq<Photo>>)

  /** Length of the leading run of results that carry `links`. */
  function LinkedPrefix(results: seq<Photo>): (k: nat)
    ensures k <= |results|
    ensures forall j :: 0 <= j < k ==> results[j].downloadLocation.Some?
    ensures k < |results| ==> results[k].downloadLocation.None?
  {
    if results == [] || results[0].downloadLocation.None? then 0 else 1 + LinkedPrefix(results[1..])
  }

  /** The download locations pinged before the loop stops. */
  function Pings(results: seq<Photo>, k: nat): (pings: seq<string>)
    requires k <= |results|
    requires forall j :: 0 <= j < k ==> results[j].downloadLocation.Some?
    ensures |pings| == k
    ensures forall j :: 0 <= j < k ==> pings[j] == results[j].downloadLocation.value
  {
    if k == 0 then [] else Pings(results, k - 1) + [results[k - 1].downloadLocation.value]
  }

  /** `UnsplashAPI.searchPhotos(query, page, perPage)` given the cache the
      object loaded, the outcome of the fetch and the random values of the
      placeholders. A result without `links` makes the download loop throw,
      which falls back to placeholders like any other error. */
  function Search(cache: Option<seq<Photo>>, page: int, perPage: int, outcome: FetchOutcome,
                  draw: nat -> RandomDraw): (r: SearchResult)
    ensures cache.Some? && page == 1 ==> r == SearchResult(cache.value, false, [], None)
    ensures !(cache.Some? && page == 1) ==> r.requested
    ensures !(cache.Some? && page == 1) && outcome.Fetched? && LinkedPrefix(outcome.results) == |outcome.results| ==>
      && r.photos == outcome.results
      && r.cacheWrite == (if page == 1 then Some(outcome.results) else None)
    ensures outcome.Failed? || (cache.Some? && page == 1) ==> r.downloadPings == []
    ensures !(cache.Some? && page == 1) && outcome.Fetched? ==>
      && |r.downloadPings| == LinkedPrefix(outcome.results)
      && forall j :: 0 <= j < |r.downloadPings| ==> r.downloadPings[j] == outcome.results[j].downloadLocation.value
    ensures !(cache.Some? && page == 1) && (outcome.Failed? || LinkedPrefix(outcome.results) < |outcome.results|) ==>
      r.photos == GeneratePlaceholderPhotos(perPage, draw) && r.cacheWrite == None
    ensures r.cacheWrite.Some? ==> page == 1 && r.cacheWrite.value == r.photos && r.requested
  {
    if cache.Some? && page == 1 then SearchResult(cache.value, false, [], None)
    else
      match outcome
      case Failed => SearchResult(GeneratePlaceholderPhotos(perPage, draw), true, [], None)
      case Fetched(results) =>
        var k := LinkedPrefix(results);
        var pings := Pings(results, k);
        if k < |results| then SearchResult(GeneratePlaceholderPhotos(perPage, draw), true, pings, None)
        else SearchResult(results, true, pings, if page == 1 then Some(results) else None)
  }

  /** Whatever the fetch does, a search returns either the cache, the
      fetched results or `perPage` placeholders. */
  lemma SearchReturnsOneOfThree(cache: Option<seq<Photo>>, page: int, perPage: int, outcome: FetchOutcome,
                                draw: nat -> RandomDraw)
    ensures var r := Search(cache, page, perPage, outcome, draw);
      || (cache.Some? && r.photos == cache.value)
      || (outcome.Fetched? && r.photos == outcome.results)
      || r.photos == GeneratePlaceholderPhotos(perPage, draw)
  {
  }

  /** The localStorage entry the cache lives in. */
  class Storage {
    var entry: CacheEntry

    constructor (entry: CacheEntry)
      ensures this.entry == entry
    {
      this.entry := entry;
    }
  }

  class UnsplashApi {
    const accessKey: string
    const baseUrl: string
    var cache: Option<seq<Photo>>

    /** The constructor loads the cache once, at instant `now`. */
    constructor (accessKey: string, storage: Storage, now: int)
      ensures this.accessKey == accessKey && baseUrl == "https://api.unsplash.com"
      ensures cache == LoadCache(storage.entry, now)
    {
      this.accessKey := accessKey;
      baseUrl := "https://api.unsplash.com";
      cache := LoadCache(storage.entry, now);
    }

    /** `saveCache(photos)` at instant `now`; `stored` is false when
        `setItem` throws (the storage is full or disabled). */
    method SaveCache(storage: Storage, photos: seq<Photo>, now: int, stored: bool)
      modifies storage
      ensures storage.entry == if stored then SavedEntry(photos, now) else old(storage.entry)
    {
      if stored {
        storage.entry := SavedEntry(photos, now);
      }
    }

    /** `searchPhotos`: the object's own cache is read, never refreshed, so
        only the storage entry changes. */
    method SearchPhotos(storage: Storage, query: string, page: int, perPage: int, outcome: FetchOutcome,
                        draw: nat -> RandomDraw, now: int, stored: bool)
      returns (photos: seq<Photo>)
      modifies storage
      ensures photos == Search(cache, page, perPage, outcome, draw).photos
      ensures storage.entry == match Search(cache, page, perPage, outcome, draw).cacheWrite
                               case Some(written) => if stored then SavedEntry(written, now) else old(storage.entry)
                               case None => old(storage.entry)
    {
      if cache.Some? && page == 1 {
        return cache.value;
      }
      match outcome {
        case Failed =>
          photos := GeneratePlaceholderPhotos(perPage, draw);
        case Fetched(results) =>
          if LinkedPrefix(results) < |results| {
            photos := GeneratePlaceholderPhotos(perPage, draw);
          } else {
            if page == 1 {
              SaveCache(storage, results, now, stored);
            }
            photos := results;
          }
      }
    }
  }
}
