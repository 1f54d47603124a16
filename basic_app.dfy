/** The plain page (app.js): its own "time ago" caption without a "just
    now" case, its deterministic placeholder generator, and the image URL
    a card shows. */
module BasicApp {
  import opened Wrappers
  import opened Numerals
  import opened Photos
  import opened TimeLabels

  /** `getTimeAgo`, given `diffMs = now - past` in milliseconds. Any time
      under an hour, zero and negative ones included, counts minutes. */
  function GetTimeAgo(diffMs: int): (r: string)
    ensures r == Label(Elapsed(diffMs, false))
    ensures r != JustNowText
    ensures diffMs < HourMs ==> r == Label(Minutes(diffMs / MinuteMs))
  {
    var diffMins := diffMs / 60000;
    var diffHours := diffMs / 3600000;
    var diffDays := diffMs / 86400000;
    WeeksOfDays(diffMs);
    if diffMins < 60 then "Il y a " + IntToString(diffMins) + " min"
    else if diffHours < 24 then "Il y a " + IntToString(diffHours) + "h"
    else if diffDays < 7 then "Il y a " + IntToString(diffDays) + " jours"
    else "Il y a " + IntToString(diffDays / 7) + " semaines"
  }

  /** The caption names its bucket unambiguously: reading it back gives
      the whole number of elapsed units that `Elapsed` counts. */
  lemma TimeAgoReadsBack(diffMs: int)
    ensures ParseLabel(GetTimeAgo(diffMs)) == Some(Elapsed(diffMs, false))
  {
    ParseLabelOfLabel(Elapsed(diffMs, false));
  }

  const Cities: seq<string> := ["Paris", "Tokyo", "New York", "Londres", "Rome", "Barcelona", "Sydney", "Dubai", "Berlin"]
  const Likes: seq<int> := [12, 23, 45, 67, 89, 123, 234, 456]

  /** The city of record `i`: the table read cyclically. */
  function CityOf(i: nat): string {
    Cities[i % 9]
  }

  /** The likes of record `i`: the table read cyclically. */
  function LikesOf(i: nat): int {
    Likes[i % 8]
  }

  /** The number in the Unsplash URLs of record `i`. */
  function PhotoNumber(i: nat): (n: int)
    ensures n >= 1500000000000
    ensures (n - 1500000000000) % 100000000 == 0 && (n - 1500000000000) / 100000000 == i
  {
    1500000000000 + i * 100000000
  }

  /** The Unsplash image URL for a photo number at a given width. */
  function UnsplashUrl(number: int, width: string): (u: string)
    ensures |u| == 34 + |IntToString(number)| + 3 + |width| + 5
    ensures u[..34] == "https://images.unsplash.com/photo-"
    ensures u[34..34 + |IntToString(number)|] == IntToString(number)
    ensures u[34 + |IntToString(number)|..|u| - 5] == "?w=" + width
  {
    var head, n, tail := "https://images.unsplash.com/photo-", IntToString(number), "?w=" + width;
    var u := head + n + tail + "&q=80";
    assert u == (head + n) + (tail + "&q=80");
    assert u[..|head + n|] == head + n;
    assert (head + n)[..34] == head && (head + n)[34..] == n;
    assert u[|head + n|..] == tail + "&q=80";
    u
  }

  /** `generatePlaceholderPhotos(count)`; `createdAt(i)` is the random
      creation instant of record `i`. */
  function GeneratePlaceholderPhotos(count: int, createdAt: nat -> int): (r: seq<Photo>)
    ensures |r| == ArrayLength(count)
    ensures forall i :: 0 <= i < |r| ==> r[i] == PlaceholderPhoto(i, createdAt(i))
  {
    seq(ArrayLength(count), i requires 0 <= i => PlaceholderPhoto(i, createdAt(i)))
  }

  /** Record `i` of the generated list. */
  function PlaceholderPhoto(i: nat, createdAt: int): (p: Photo)
    ensures p.id == "photo-" + IntToString(i)
    ensures p.urls.regular == UnsplashUrl(PhotoNumber(i), "800")
    ensures p.urls.thumb == UnsplashUrl(PhotoNumber(i), "400")
    ensures p.user.name == "Photographe " + IntToString(i + 1)
    ensures p.user.username == "photographer" + IntToString(i + 1)
    ensures p.location.city == CityOf(i) && p.likes == LikesOf(i)
    ensures p.description == "Belle photo de " + p.location.city
    ensures p.createdAt == createdAt
  {
    var city := CityOf(i);
    Photo(
      "photo-" + IntToString(i),
      Urls(UnsplashUrl(PhotoNumber(i), "800"), UnsplashUrl(PhotoNumber(i), "400"), None),
      User("Photographe " + IntToString(i + 1), "photographer" + IntToString(i + 1), None),
      Location(city, None),
      createdAt,
      LikesOf(i),
      "Belle photo de " + city,
      None,
      None)
  }

  /** The URL in a card's `<img>`: the picsum.photos image seeded by the
      photo's id. */
  function CardImageUrl(photo: Photo): (u: string)
    ensures |u| == 27 + |photo.id| + 8
    ensures u[..27] == "https://picsum.photos/seed/"
    ensures u[27..27 + |photo.id|] == photo.id
    ensures u[27 + |photo.id|..] == "/600/400"
  {
    "https://picsum.photos/seed/" + photo.id + "/600/400"
  }

  /** A card's image is decided by the photo's id alone: two photos get the
      same image exactly when they have the same id. */
  lemma CardImageUrlByIdOnly(p: Photo, q: Photo)
    ensures CardImageUrl(p) == CardImageUrl(q) <==> p.id == q.id
  {
    var head := "https://picsum.photos/seed/";
    var tail := "/600/400";
    if CardImageUrl(p) == CardImageUrl(q) {
      var u := CardImageUrl(p);
      assert |p.id| == |q.id|;
      assert u[|head|..|u| - |tail|] == p.id;
      assert CardImageUrl(q)[|head|..|u| - |tail|] == q.id;
    }
  }

  /** The full-size and thumbnail URLs of a record name the same photo
      number and differ only in the width parameter; different records
      name different numbers. */
  lemma UrlsShareNumber(i: nat, j: nat)
    ensures UnsplashUrl(PhotoNumber(i), "800") != UnsplashUrl(PhotoNumber(i), "400")
    ensures UnsplashUrl(PhotoNumber(i), "800") == UnsplashUrl(PhotoNumber(j), "800") <==> i == j
  {
    var head := "https://images.unsplash.com/photo-";
    var n := IntToString(PhotoNumber(i));
    var a := UnsplashUrl(PhotoNumber(i), "800");
    var b := UnsplashUrl(PhotoNumber(i), "400");
    assert a[|head| + |n| + 3] == '8' && b[|head| + |n| + 3] == '4';
    if a == UnsplashUrl(PhotoNumber(j), "800") {
      var m := IntToString(PhotoNumber(j));
      var tail := "?w=800&q=80";
      assert |n| == |m|;
      assert a[|head|..|a| - |tail|] == n;
      assert UnsplashUrl(PhotoNumber(j), "800")[|head|..|a| - |tail|] == m;
      IntToStringInjective(PhotoNumber(i), PhotoNumber(j));
    }
  }

  /** Placeholder ids are pairwise distinct, so every card of the grid
      shows its own image. */
  lemma CardImagesDistinct(count: int, createdAt: nat -> int, i: nat, j: nat)
    requires i < j < |GeneratePlaceholderPhotos(count, createdAt)|
    ensures CardImageUrl(GeneratePlaceholderPhotos(count, createdAt)[i]) != CardImageUrl(GeneratePlaceholderPhotos(count, createdAt)[j])
  {
    var r := GeneratePlaceholderPhotos(count, createdAt);
    var p := "photo-";
    CardImageUrlByIdOnly(r[i], r[j]);
    if r[i].id == r[j].id {
      assert (p + IntToString(i))[|p|..] == IntToString(i);
      assert (p + IntToString(j))[|p|..] == IntToString(j);
      IntToStringInjective(i, j);
    }
  }
}
