# spot-map: the rules behind the photo grid

spot-map is a client-side landing page for sharing travel photos. It shows a
map, fills a grid with photos that it fetches from Unsplash or synthesises,
and adds micro-interactions to each photo card. Most of it is DOM
templating. This project models the parts of its two scripts that follow
rules:

- the French "time ago" caption under each photo. `app-enhanced.js` has a
  "just now" bucket (`À l'instant`); `app.js` has none.
- the two placeholder-photo generators, one per page.
- the card image URL on the plain page.
- the `UnsplashAPI` class: a 24-hour photo cache kept in one localStorage
  entry, and the choice `searchPhotos` makes between the cache, a fetched
  result page and generated placeholders.
- the bookmark toggle and the like counter of a `PhotoCard`. They edit an
  SVG icon's `fill` attribute, its class list and a `<span>`'s text.
- the floating action button's `isPressed` machine in `setupFAB`.

## Structure

Modules, one per file:

- `Wrappers`: `Option`.
- `Numerals`: what JavaScript does with integral numbers here.
  - Number::toString renders them, with a minus sign and no leading zeros.
  - The global `parseInt` reads them back, per section 19.2.5 of
    ECMA-262: leading white space skipped, one sign, a `0x` prefix, the
    longest digit run, NaN as `None`.
  - Round-trip lemmas connect the two.
- `ClassList`: a DOMTokenList as an ordered `seq<string>`. `remove` drops
  the token. `add` appends it only when it is absent.
- `Photos`: the photo record, and the length that `Array.from({length})`
  gives.
- `TimeLabels`:
  - the caption buckets, their text, and a reader that parses a caption
    back into its bucket;
  - `Elapsed`, an independent statement of which bucket is right. It is
    given by thresholds on the elapsed time.
- `PhotoCards`: the enhanced page's `getTimeAgo`, `toggleBookmark` and
  `animateLike`. The handlers are methods on `Svg` and `Span` objects whose
  fields they update in place. Each method is specified by a pure function
  on the element's state, and the lemmas are about that function.
- `Fab`: the `setupFAB` handlers.
  - `Step` is the pure step function and `Run` replays an event sequence.
  - `FabController` holds the closure's flag and the button's transform as
    fields.
- `Unsplash`: the `UnsplashAPI` class.
  - `LoadCache` decides what `loadCache` returns. `Search` decides what
    `searchPhotos` does for a given cache, page and fetch outcome.
  - The `UnsplashApi` class keeps `this.cache`. It updates a `Storage`
    object that stands for the localStorage entry.
- `BasicApp`: `app.js`'s `getTimeAgo`, `generatePlaceholderPhotos` and the
  `<img>` URL that `displayPhotos` builds.

Host services are inputs.

- The clock:
  - `getTimeAgo` takes `diffMs = now - past`.
  - `loadCache`, `saveCache` and `searchPhotos` take `now`.
- `Math.random` is a function from the record index to the values drawn
  for that record. The likes drawn lie in 0..499.
- The fetch is a `FetchOutcome`: `Fetched(results)` or `Failed`.
- A failing `localStorage.setItem` is a `stored` flag.
- The localStorage entry is modelled as what `JSON.parse` makes of it.

## Model

| member | source | states |
|---|---|---|
| Numerals.NatToString | app-enhanced.js:365 | The text of a natural number is a non-empty run of decimal digits. It starts with `0` exactly for zero, which prints as "0". |
| Numerals.IntToString | app-enhanced.js:365 | Number::toString of an integer is non-empty. It starts with `-` exactly for negatives, and otherwise it is all digits. |
| Numerals.DigitValue | app-enhanced.js:364 | A character's digit value is at most 36. It is below 10 exactly for `0`-`9`. |
| Numerals.DigitRunLength | app-enhanced.js:364 | The longest run of digits in a radix at the front of a string: every character in it is a digit, and the next one is not. |
| Numerals.TrimStart | app-enhanced.js:364 | `parseInt` skips leading white space and nothing else: the result is a suffix of the text, everything dropped is white space, and the result does not start with white space. |
| Numerals.ParseInt | app-enhanced.js:364 | `parseInt(text)`: a number comes out only when the first character after the white space is a digit or a sign, and it is negative only after a minus. `ParseIntOfIntToString` and `ParseIntSkipsWhiteSpace` are its partners. |
| Numerals.ParseSigned | app-enhanced.js:364 | After the white space, a number comes out only when the text starts with a digit or a sign. A digit from 1 to 9 first always gives a number, which is not negative, and only a minus gives a negative one. |
| Numerals.ParseMagnitude | app-enhanced.js:364 | After the sign, a number comes out only when the text starts with a decimal digit, and always when it starts with 1 to 9. |
| Numerals.ParseIntSkipsWhiteSpace | app-enhanced.js:364 | White space in front of the text does not change what `parseInt` reads. |
| Numerals.NumberText | app-enhanced.js:365 | The count text is "NaN" exactly for NaN, and `parseInt` reads back the number it shows. |
| Numerals.PlusOne | app-enhanced.js:365 | `x + 1` is NaN exactly when `x` is NaN, and is one more otherwise. |
| Numerals.DigitsValueOfNatToString | app-enhanced.js:364-365 | The digits Number::toString prints for `n` have the value `n`. |
| Numerals.DigitRunOfDigits | app-enhanced.js:364 | A digit string followed by a non-digit gives a digit run that ends exactly where the digit string does. |
| Numerals.ParseIntOfIntToString | app-enhanced.js:364-365 | `parseInt` reads back every integer Number::toString renders. |
| Numerals.IntToStringInjective | app-enhanced.js:202 | Two integers render as the same text exactly when they are equal. |
| Numerals.ScanNatOfNatToString | app-enhanced.js:445-448 | Reading digits from a rendered natural number followed by a non-digit gives the number and the text after it. |
| Numerals.ScanIntOfIntToString | app-enhanced.js:445-448 | Reading a signed count from a rendered integer followed by a non-digit gives the integer and the text after it. |
| ClassList.Remove | app-enhanced.js:368 | `classList.remove(t)`: `t` is gone and every other token stays. The list is unchanged when `t` was absent. It never grows and keeps having no repeats. |
| ClassList.Add | app-enhanced.js:369 | `classList.add(t)`: `t` is present and no other token appears or disappears. The list is unchanged when `t` was present, `t` goes at the end when absent, and the list keeps having no repeats. |
| ClassList.RemoveLast | app-enhanced.js:416 | Removing the last token of a list without repeats cuts it off the end and keeps the rest in order. |
| ClassList.SwapLast | app-enhanced.js:415-421 | Remove-then-add of an absent token puts it in place of the removed last token, and the list still has no repeats. |
| Photos.ArrayLength | app-enhanced.js:201 | `Array.from({length: count})` has `count` elements, and none when `count` is negative. |
| TimeLabels.Label | app-enhanced.js:444-448 | A bucket's caption is "À l'instant" exactly for the just-now bucket. |
| TimeLabels.ParseLabelOfLabel | app-enhanced.js:444-448 | Every caption reads back as the bucket it came from, so no two buckets share a caption. |
| TimeLabels.Elapsed | app-enhanced.js:440-448 | Reference for the caption. Just now exactly under a minute, when that bucket exists. Otherwise the largest unit that has fully elapsed, counted as the whole units `n` with `n*unit <= diff < (n+1)*unit`, together with each bucket's range: 1 to 59 minutes, 1 to 23 hours, 1 to 6 days, 1 week or more. |
| TimeLabels.WeeksOfDays | app-enhanced.js:448 | Flooring to days and then dividing by 7 gives the whole weeks elapsed. |
| TimeLabels.FloorUnique | app-enhanced.js:440-442 | `Math.floor(x / d)` is the only `q` with `q*d <= x < (q+1)*d`. |
| PhotoCards.GetTimeAgo | app-enhanced.js:436-449 | The caption is the one `Elapsed` prescribes, with the just-now bucket. It is "À l'instant" exactly when `diffMs < 60000`, future times included. |
| PhotoCards.TimeAgoReadsBack | app-enhanced.js:436-449 | The caption reads back as the bucket and whole count that `Elapsed` gives. |
| PhotoCards.ToggleBookmark | app-enhanced.js:410-425 | The fill flips: "currentColor" becomes "none", and anything else, a missing fill included, becomes "currentColor". The colour classes then agree with the fill. Every other class is kept, and a list without repeats stays so. |
| PhotoCards.ToggleBookmarkTwice | app-enhanced.js:410-425 | From a consistent icon, two toggles restore the fill and the set of classes. |
| PhotoCards.ToggleBookmarkTwiceExact | app-enhanced.js:410-425 | Two toggles restore the icon exactly, class order included, when the colour class is last and there are no repeats. |
| PhotoCards.RenderedBookmarkRoundTrip | app-enhanced.js:286 | The icon as rendered is bookmarked by one click and is back to its rendered state after two. |
| PhotoCards.ToggleBookmarkIcon | app-enhanced.js:410-425 | The click handler leaves the SVG in the state `ToggleBookmark` gives. |
| PhotoCards.LikeCount | app-enhanced.js:364-365 | The count text becomes the text of `parseInt(text) + 1`, or "NaN" when the text does not parse. |
| PhotoCards.LikeIcon | app-enhanced.js:368-369 | The heart has text-red-500 and no text-red-400. Every other class is kept. |
| PhotoCards.LikeCountOfInt | app-enhanced.js:364-365 | A click on a count showing `n` shows `n + 1`. |
| PhotoCards.LikesAccumulate | app-enhanced.js:364-365 | `k` clicks on a card rendered with `likes` show `likes + k`. |
| PhotoCards.LikedIconClasses | app-enhanced.js:258 | From the first click on, the rendered heart's classes are `w-5 h-5 transition-all text-red-500`. |
| PhotoCards.LikeNaNSticks | app-enhanced.js:364-365 | Once the count does not parse, every further click writes "NaN". |
| PhotoCards.AnimateLike | app-enhanced.js:353-373 | The handler sets the count text by `LikeCount` and the heart's classes by `LikeIcon`, and leaves the fill alone. |
| Fab.Step | app-enhanced.js:652-672 | The modal opens exactly on a mouseup while pressed. Afterwards the button is pressed exactly when the event was a mousedown. The transform is scale(0.9) after a press, scale(1) after a release of a pressed button, and unchanged otherwise. |
| Fab.OpensBoundedByPresses | app-enhanced.js:652-672 | Over any event sequence, opens plus a press still held at the end never exceed the presses plus a press held at the start. |
| Fab.NoPressNoModal | app-enhanced.js:659-665 | From the initial state, events without a mousedown never open the modal. |
| Fab.PressedIffLastWasDown | app-enhanced.js:652-672 | After a non-empty sequence, the button is pressed exactly when the last event was a mousedown. |
| Fab.ClickOpensOnce | app-enhanced.js:654-665 | Mousedown then mouseup opens the modal once and leaves scale(1). |
| Fab.PressThenLeaveCancels | app-enhanced.js:659-672 | Mousedown, mouseleave, mouseup opens nothing. |
| Fab.FabController.constructor | app-enhanced.js:652 | The flag starts false. |
| Fab.FabController.OnMouseDown | app-enhanced.js:654-657 | The handler leaves the state that `Step` gives for a mousedown. |
| Fab.FabController.OnMouseUp | app-enhanced.js:659-665 | The handler leaves the state `Step` gives for a mouseup, and reports whether the modal opens. |
| Fab.FabController.OnMouseLeave | app-enhanced.js:667-672 | The handler leaves the state `Step` gives for a mouseleave. |
| Unsplash.SeededUrl | app-enhanced.js:204-206 | A picsum.photos URL carries the seed right after `/seed/`, followed by the size. |
| Unsplash.PlaceholderPhoto | app-enhanced.js:201-226 | Record `i`: the index fixes the id, the picsum URLs, the user and the avatar. Its city is `cities[i % 10]`, its country is France, and its description and alt text name that city. Download location "#". Its instant and likes are the drawn ones, and the likes lie in 0..499. |
| Unsplash.GeneratePlaceholderPhotos | app-enhanced.js:195-227 | `count` records (none for a negative count). Record `i` is `PlaceholderPhoto(i, draw(i))`. |
| Unsplash.PlaceholderIdsDistinct | app-enhanced.js:202 | Placeholder ids are pairwise distinct. |
| Unsplash.PlaceholderPrefix | app-enhanced.js:201 | With the same draws, a shorter list is a prefix of a longer one. |
| Unsplash.CitiesCycle | app-enhanced.js:216 | Cities repeat every ten records, and any ten consecutive records show every city. |
| Unsplash.LoadCache | app-enhanced.js:115-128 | The stored photos come back exactly when the entry is a record stamped less than 86400000 ms before `now`, strictly, and has photos. Otherwise the result is null. |
| Unsplash.SavedEntry | app-enhanced.js:132-135 | What `saveCache` stores: the photos stamped with the saving instant, which load back at that instant. |
| Unsplash.LoadAfterSave | app-enhanced.js:115-139 | A saved page loads back unchanged for 24 hours and not a millisecond longer. |
| Unsplash.LinkedPrefix | app-enhanced.js:165-167 | The leading run of results that carry `links`: every one in it has a download location and the next one has none. |
| Unsplash.Pings | app-enhanced.js:165-167 | The download locations pinged, in result order. |
| Unsplash.Search | app-enhanced.js:141-181 | A non-null cache on page 1 is returned with no request, ping or write, even when empty. Otherwise the request is sent. A fetch whose results all carry links is returned, every result is pinged, and the cache is written on page 1 only. A failed fetch, or a result without links, gives `perPage` placeholders and no write; the pings are the linked ones before the failure. |
| Unsplash.SearchReturnsOneOfThree | app-enhanced.js:141-181 | A search returns the cache, the fetched results or the placeholders. |
| Unsplash.UnsplashApi.constructor | app-enhanced.js:109-113 | The object loads the cache once, at construction. |
| Unsplash.UnsplashApi.SaveCache | app-enhanced.js:130-139 | The entry becomes the photos stamped with `now`, unless `setItem` throws. |
| Unsplash.UnsplashApi.SearchPhotos | app-enhanced.js:141-181 | It returns what `Search` decides for the object's cache. The storage entry changes only by the page-1 write. |
| BasicApp.GetTimeAgo | app.js:198-210 | The caption is the one `Elapsed` prescribes, with no just-now bucket. It is never "À l'instant". Every `diffMs < 3600000` gives minutes, `floor(diffMs / 60000)`, zero and negative included. |
| BasicApp.TimeAgoReadsBack | app.js:198-210 | The caption reads back as the bucket and whole count that `Elapsed` gives. |
| BasicApp.PhotoNumber | app.js:106-107 | The photo number in the Unsplash URLs is at least 1500000000000, and the record index can be recovered from it, so different records get different numbers. |
| BasicApp.UnsplashUrl | app.js:106-107 | The Unsplash URL carries the photo number right after `photo-`, then `?w=` and the width, then `&q=80`. |
| BasicApp.PlaceholderPhoto | app.js:103-119 | Record `i`: id `photo-i`, regular and thumb Unsplash URLs on the photo number, "Photographe i+1" and "photographeri+1". City `cities[i % 9]` and likes `likes[i % 8]`; the description names that city, and the drawn instant. |
| BasicApp.GeneratePlaceholderPhotos | app.js:98-120 | `count` records (none for a negative count). Record `i` is `PlaceholderPhoto(i, createdAt(i))`. |
| BasicApp.CardImageUrl | app.js:133 | The card's `<img>` URL carries the photo id between `https://picsum.photos/seed/` and `/600/400`. |
| BasicApp.CardImageUrlByIdOnly | app.js:133 | Two photos get the same card image exactly when they have the same id. |
| BasicApp.UrlsShareNumber | app.js:106-107 | A record's regular and thumb URLs differ, only in the width. Regular URLs of two records are equal exactly when the records are. |
| BasicApp.CardImagesDistinct | app.js:133 | The generated records show pairwise different card images. |

## Left out

- `SpringAnimation` and `animateSpring` (the bounces in `animateLike` and
  `toggleBookmark`) are left out. They are floating-point integration and
  easing scheduled by `requestAnimationFrame`.
- The network is left out.
  - The search request and its URL (`encodeURIComponent`, headers) are not
    modelled. The response is a `FetchOutcome`.
  - `triggerDownload` is not modelled beyond the list of locations it is
    called with. Its own failures are caught and change nothing.
- `localStorage`, `JSON.stringify` and `JSON.parse` are left out as text.
  - The entry is modelled as what parsing yields, and saving is assumed to
    round-trip through JSON.
  - A `photos` field that parses to something other than an array is
    represented as a record with photos or without them.
- Dates are left out.
  - `created_at` is an instant in milliseconds, not an ISO string.
  - `getTimeAgo` takes the difference directly.
  - NaN differences from unparseable dates are not modelled.
- `Math.random` and `Date.now` are inputs, as described above.
- Photos.ArrayLength: the RangeError that `Array.from` throws for a length
  above 2^32 - 1 is not modelled, and counts are integral.
- BasicApp.PhotoNumber: the number is exact. JavaScript computes it in
  doubles, which stay exact only while `i` is below about 9 * 10^7.
- Numerals.IntToString: exponent notation, which Number::toString uses from
  10^21 up, and precision loss beyond 2^53 are not modelled.
- Numerals.ParseInt: values beyond 2^53 are not rounded, and `-0` is the
  integer 0.
- The `console.log`, `console.warn` and `console.error` calls in
  `loadCache`, `saveCache`, `searchPhotos` and `triggerDownload` are left
  out; they only report to the developer console.
- DOM rendering of the cards, map and badges, particle effects, toasts,
  modals and timers are left out, as is the unused `times` table in
  `generatePlaceholderPhotos` of `app.js`.
- Leaflet map setup, scroll effects and the dark-mode listener are left out.
