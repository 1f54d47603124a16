/** The `PhotoCard` micro-interactions of the enhanced page
    (app-enhanced.js): the "time ago" caption, the bookmark toggle and the
    like counter. The SVG icon and the count `<span>` are objects whose
    attributes, class lists and text the handlers change in place. */
module PhotoCards {
  import opened Wrappers
  import opened Numerals
  import opened ClassList
  import opened TimeLabels

  /** `PhotoCard.getTimeAgo`, given `diffMs = now - past` in milliseconds:
      floor-divide into minutes, hours and days and try the buckets in
      order, "just now" first. */
  function GetTimeAgo(diffMs: int): (r: string)
    ensures r == Label(Elapsed(diffMs, true))
    ensures r == JustNowText <==> diffMs < MinuteMs
  {
    var diffMins := diffMs / 60000;
    var diffHours := diffMs / 3600000;
    var diffDays := diffMs / 86400000;
    WeeksOfDays(diffMs);
    if diffMins < 1 then "À l'instant"
    else if diffMins < 60 then "Il y a " + IntToString(diffMins) + " min"
    else if diffHours < 24 then "Il y a " + IntToString(diffHours) + "h"
    else if diffDays < 7 then "Il y a " + IntToString(diffDays) + " jours"
    else "Il y a " + IntToString(diffDays / 7) + " semaines"
  }

  /** The caption names its bucket unambiguously: reading it back gives
      the whole number of elapsed units that `Elapsed` counts. */
  lemma TimeAgoReadsBack(diffMs: int)
    ensures ParseLabel(GetTimeAgo(diffMs)) == Some(Elapsed(diffMs, true))
  {
    ParseLabelOfLabel(Elapsed(diffMs, true));
  }

  const Bookmarked := "currentColor"
  const NotBookmarked := "none"
  const BookmarkedClass := "text-yellow-400"
  const NotBookmarkedClass := "text-gray-400"

  const LikedClass := "text-red-500"
  const UnlikedClass := "text-red-400"

  /** What the handlers see of an SVG icon: its `fill` attribute (`None`
      when absent) and its class list. */
  datatype IconView = IconView(fill: Option<string>, classes: seq<string>)

  /** The bookmark icon as the card renders it. */
  const RenderedBookmarkIcon := IconView(Some(NotBookmarked), ["w-5", "h-5", NotBookmarkedClass])

  /** The fill attribute and the colour class agree. */
  predicate BookmarkConsistent(icon: IconView) {
    || (icon.fill == Some(Bookmarked) && BookmarkedClass in icon.classes && NotBookmarkedClass !in icon.classes)
    || (icon.fill == Some(NotBookmarked) && NotBookmarkedClass in icon.classes && BookmarkedClass !in icon.classes)
  }

  /** `PhotoCard.toggleBookmark` on the icon: an icon whose fill is
      "currentColor" is unbookmarked, any other is bookmarked, and the
      colour classes follow; the other classes are untouched. */
  function ToggleBookmark(icon: IconView): (r: IconView)
    ensures r.fill == Some(if icon.fill == Some(Bookmarked) then NotBookmarked else Bookmarked)
    ensures BookmarkConsistent(r)
    ensures forall c :: c != BookmarkedClass && c != NotBookmarkedClass ==> (c in r.classes <==> c in icon.classes)
    ensures NoDuplicates(icon.classes) ==> NoDuplicates(r.classes)
  {
    if icon.fill == Some(Bookmarked) then
      IconView(Some(NotBookmarked), Add(Remove(icon.classes, BookmarkedClass), NotBookmarkedClass))
    else
      IconView(Some(Bookmarked), Add(Remove(icon.classes, NotBookmarkedClass), BookmarkedClass))
  }

  /** Two toggles from a consistent icon give back its fill and the same
      set of classes. */
  lemma ToggleBookmarkTwice(icon: IconView)
    requires BookmarkConsistent(icon)
    ensures ToggleBookmark(ToggleBookmark(icon)).fill == icon.fill
    ensures forall c :: c in ToggleBookmark(ToggleBookmark(icon)).classes <==> c in icon.classes
  {
  }

  /** When the colour class is the last one, as on the rendered card, two
      toggles restore the class list exactly, order included. */
  lemma ToggleBookmarkTwiceExact(icon: IconView)
    requires BookmarkConsistent(icon) && NoDuplicates(icon.classes)
    requires icon.classes[|icon.classes| - 1] == (if icon.fill == Some(Bookmarked) then BookmarkedClass else NotBookmarkedClass)
    ensures ToggleBookmark(ToggleBookmark(icon)) == icon
  {
    var last := icon.classes[|icon.classes| - 1];
    var other := if last == BookmarkedClass then NotBookmarkedClass else BookmarkedClass;
    var base := icon.classes[..|icon.classes| - 1];
    assert icon.classes == base + [last];
    assert other !in base && last !in base;
    SwapLast(base, last, other);
    assert ToggleBookmark(icon).classes == base + [other];
    SwapLast(base, other, last);
  }

  /** The rendered bookmark icon returns to its exact rendered state after
      every second click. */
  lemma RenderedBookmarkRoundTrip()
    ensures ToggleBookmark(RenderedBookmarkIcon).fill == Some(Bookmarked)
    ensures ToggleBookmark(ToggleBookmark(RenderedBookmarkIcon)) == RenderedBookmarkIcon
  {
    ToggleBookmarkTwiceExact(RenderedBookmarkIcon);
  }

  /** `PhotoCard.animateLike` on the count `<span>`: the text becomes
      `parseInt(text) + 1`, and NaN stays NaN. */
  function LikeCount(text: string): (r: string)
    ensures r == match ParseInt(text)
                 case None => "NaN"
                 case Some(n) => IntToString(n + 1)
  {
    NumberText(PlusOne(ParseInt(text)))
  }

  /** `PhotoCard.animateLike` on the heart icon: the red-400 colour class
      gives way to red-500, and the other classes stay. */
  function LikeIcon(classes: seq<string>): (r: seq<string>)
    ensures LikedClass in r && UnlikedClass !in r
    ensures forall c :: c != LikedClass && c != UnlikedClass ==> (c in r <==> c in classes)
  {
    Add(Remove(classes, UnlikedClass), LikedClass)
  }

  /** The count text after `k` clicks. */
  function LikeCountTimes(text: string, k: nat): string {
    if k == 0 then text else LikeCount(LikeCountTimes(text, k - 1))
  }

  /** The icon classes after `k` clicks. */
  function LikeIconTimes(classes: seq<string>, k: nat): seq<string> {
    if k == 0 then classes else LikeIcon(LikeIconTimes(classes, k - 1))
  }

  /** `k` clicks on the like button of a card rendered with `likes` (the
      count `<span>` holds the number's text) show `likes + k`. */
  lemma {:induction false} LikesAccumulate(likes: int, k: nat)
    ensures LikeCountTimes(IntToString(likes), k) == IntToString(likes + k)
  {
    if k > 0 {
      LikesAccumulate(likes, k - 1);
      LikeCountStep(likes, k);
    }
  }

  /** One induction step of `LikesAccumulate`. */
  lemma LikeCountStep(likes: int, k: nat)
    requires k > 0
    requires LikeCountTimes(IntToString(likes), k - 1) == IntToString(likes + k - 1)
    ensures LikeCountTimes(IntToString(likes), k) == IntToString(likes + k)
  {
    LikeCountOfInt(likes + k - 1);
  }

  /** A click on a count showing `n` shows `n + 1`. */
  lemma LikeCountOfInt(n: int)
    ensures LikeCount(IntToString(n)) == IntToString(n + 1)
  {
    ParseIntOfIntToString(n);
  }

  /** The heart icon's classes as the card renders them, and after a like. */
  const RenderedHeartClasses := ["w-5", "h-5", UnlikedClass, "transition-all"]
  const LikedHeartClasses := ["w-5", "h-5", "transition-all", LikedClass]

  /** From the first click on, the heart is red-500 and the rendered
      classes are otherwise kept in order. */
  lemma {:induction false} LikedIconClasses(k: nat)
    requires k > 0
    ensures LikeIconTimes(RenderedHeartClasses, k) == LikedHeartClasses
  {
    if k == 1 {
      FirstLikeIcon();
    } else {
      LikedIconClasses(k - 1);
      assert UnlikedClass !in LikedHeartClasses;
    }
  }

  lemma FirstLikeIcon()
    ensures LikeIcon(RenderedHeartClasses) == LikedHeartClasses
  {
    var rendered := RenderedHeartClasses;
    assert rendered[1..][1..] == [UnlikedClass, "transition-all"];
    assert Remove([UnlikedClass, "transition-all"], UnlikedClass) == ["transition-all"] by {
      assert [UnlikedClass, "transition-all"][1..] == ["transition-all"];
    }
    assert Remove(rendered, UnlikedClass) == ["w-5", "h-5", "transition-all"];
  }

  /** Once the count text does not parse, every further click writes
      "NaN". */
  lemma {:induction false} LikeNaNSticks(text: string, k: nat)
    requires ParseInt(text).None?
    ensures LikeCountTimes(text, k + 1) == "NaN"
  {
    if k > 0 {
      LikeNaNSticks(text, k - 1);
    }
  }

  /** An SVG element of the card: its `fill` attribute and class list. */
  class Svg {
    var fill: Option<string>
    var classList: seq<string>

    constructor (fill: Option<string>, classList: seq<string>)
      ensures this.fill == fill && this.classList == classList
    {
      this.fill := fill;
      this.classList := classList;
    }

    function View(): IconView
      reads this
    {
      IconView(fill, classList)
    }
  }

  /** A `<span>` whose text the card rewrites. */
  class Span {
    var textContent: string

    constructor (text: string)
      ensures textContent == text
    {
      textContent := text;
    }
  }

  /** The bookmark click handler, on the button's icon. */
  method ToggleBookmarkIcon(icon: Svg)
    modifies icon
    ensures icon.View() == ToggleBookmark(old(icon.View()))
  {
    var isBookmarked := icon.fill == Some(Bookmarked);
    if isBookmarked {
      icon.fill := Some(NotBookmarked);
      icon.classList := Remove(icon.classList, BookmarkedClass);
      icon.classList := Add(icon.classList, NotBookmarkedClass);
    } else {
      icon.fill := Some(Bookmarked);
      icon.classList := Remove(icon.classList, NotBookmarkedClass);
      icon.classList := Add(icon.classList, BookmarkedClass);
    }
  }

  /** The like click handler, on the button's icon and count. */
  method AnimateLike(icon: Svg, count: Span)
    modifies icon, count
    ensures count.textContent == LikeCount(old(count.textContent))
    ensures icon.classList == LikeIcon(old(icon.classList))
    ensures icon.fill == old(icon.fill)
  {
    var currentLikes := ParseInt(count.textContent);
    count.textContent := NumberText(PlusOne(currentLikes));
    icon.classList := Remove(icon.classList, UnlikedClass);
    icon.classList := Add(icon.classList, LikedClass);
  }
}
