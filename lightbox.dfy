/** The photo lightbox on the hobbies page: a selected photo (or none, when
    the lightbox is closed) and the index of the photo being shown, moved by
    the previous and next buttons with wrap-around. */
module Lightbox {
  import opened Wrappers

  datatype HobbyPhoto = HobbyPhoto(
    id: string,
    url: string,
    alt: string,
    caption: string,
    date: Option<string>,
    location: Option<string>,
    event: Option<string>)

  /** The three cricket photos of the page. */
  const CricketPhotos: seq<HobbyPhoto> := [
    HobbyPhoto("1", "/Volunteering/Cricket/Cricket.jpeg", "Cricket match action",
      "On the pitch - playing the game I love", None, Some("Melbourne"), Some("Club Cricket")),
    HobbyPhoto("2", "/Volunteering/Cricket/Award1.jpeg", "Cricket award ceremony",
      "Season award recognition", None, Some("Melbourne"), Some("Season Awards")),
    HobbyPhoto("3", "/Volunteering/Cricket/Award2.jpeg", "Cricket achievement award",
      "Celebrating cricket achievements", None, Some("Melbourne"), Some("Awards Night"))
  ]

  /** JavaScript's `a % b` on integers: the remainder of truncating division,
      which takes the sign of `a` (Dafny's own `%` never goes negative). */
  function JsRem(a: int, b: int): (r: int)
    requires b != 0
    ensures exists q: int :: a == q * b + r
    ensures a >= 0 ==> 0 <= r < (if b > 0 then b else -b)
    ensures a < 0 ==> -(if b > 0 then b else -b) < r <= 0
    ensures 0 <= a < (if b > 0 then b else -b) ==> r == a
  {
    var m := if b > 0 then b else -b;
    var x := if a >= 0 then a else -a;
    TruncatedQuotient(a, b);
    SmallRemainder(x, m);
    if a >= 0 then x % m else -(x % m)
  }

  /** The quotient of truncating division exists: `a == q * b + JsRem(a, b)`. */
  lemma TruncatedQuotient(a: int, b: int)
    requires b != 0
    ensures var m := if b > 0 then b else -b;
            var x := if a >= 0 then a else -a;
            exists q: int :: a == q * b + (if a >= 0 then x % m else -(x % m))
  {
    var m := if b > 0 then b else -b;
    var x := if a >= 0 then a else -a;
    var q0 := x / m;
    assert x == q0 * m + x % m;
    var s := if b > 0 then q0 else -q0;
    assert s * b == q0 * m;
    var q := if a >= 0 then s else -s;
    assert a == q * b + (if a >= 0 then x % m else -(x % m));
  }

  lemma SmallRemainder(a: int, m: int)
    requires m > 0 && a >= 0
    ensures a < m ==> a % m == a
    ensures a == m ==> a % m == 0
    ensures m <= a < 2 * m ==> a % m == a - m
  {
    if a < m {
      assert a == 0 * m + a;
    } else if a < 2 * m {
      assert a == 1 * m + (a - m);
    }
  }

  datatype Direction = Prev | Next

  /** The index `navigatePhoto` computes:
      `(i + 1) % n` for next, `(i - 1 + n) % n` for prev. */
  function Step(direction: Direction, i: int, n: int): (r: int)
    requires n > 0 && 0 <= i < n
    ensures 0 <= r < n
    ensures direction == Next ==> r == (if i == n - 1 then 0 else i + 1)
    ensures direction == Prev ==> r == (if i == 0 then n - 1 else i - 1)
  {
    match direction
    case Next =>
      SmallRemainder(i + 1, n);
      JsRem(i + 1, n)
    case Prev =>
      SmallRemainder(i - 1 + n, n);
      JsRem(i - 1 + n, n)
  }

  /** Next then prev, and prev then next, come back to the same photo. */
  lemma StepInverse(i: int, n: int)
    requires n > 0 && 0 <= i < n
    ensures Step(Prev, Step(Next, i, n), n) == i
    ensures Step(Next, Step(Prev, i, n), n) == i
  {
  }

  /** `k` presses of next, starting from index `i`. */
  function NextTimes(i: int, n: int, k: nat): (r: int)
    requires n > 0 && 0 <= i < n
    ensures 0 <= r < n
  {
    if k == 0 then i else Step(Next, NextTimes(i, n, k - 1), n)
  }

  /** Up to one full round, `k` presses of next move `k` places forward,
      wrapping past the last photo once. */
  lemma {:induction false} NextTimesShift(i: int, n: int, k: nat)
    requires n > 0 && 0 <= i < n && k <= n
    ensures NextTimes(i, n, k) == if i + k < n then i + k else i + k - n
  {
    if k > 0 {
      NextTimesShift(i, n, k - 1);
    }
  }

  /** Pressing next once per photo returns to the starting photo. */
  lemma NextFullCycle(i: int, n: int)
    requires n > 0 && 0 <= i < n
    ensures NextTimes(i, n, n) == i
  {
    NextTimesShift(i, n, n);
  }

  /** On the page's three cricket photos, prev from the first photo shows the
      third, and three presses of next come back to where they started. */
  lemma CricketPhotosWrap(i: int)
    requires 0 <= i < |CricketPhotos|
    ensures |CricketPhotos| == 3
    ensures Step(Prev, 0, |CricketPhotos|) == 2
    ensures Step(Next, 2, |CricketPhotos|) == 0
    ensures NextTimes(i, |CricketPhotos|, 3) == i
  {
    NextFullCycle(i, |CricketPhotos|);
  }

  /** The lightbox state: `selectedPhoto` (null when closed) and `currentIndex`. */
  class LightboxState {
    const photos: seq<HobbyPhoto>
    var selectedPhoto: Option<HobbyPhoto>
    var currentIndex: int

    /** Reachable states: the index is a valid position whenever there are
        photos, and an open lightbox shows the photo at the index. */
    ghost predicate Valid()
      reads this
    {
      && 0 <= currentIndex
      && (|photos| > 0 ==> currentIndex < |photos|)
      && (selectedPhoto.Some? ==> currentIndex < |photos| && selectedPhoto.value == photos[currentIndex])
    }

    constructor (photos: seq<HobbyPhoto>)
      ensures this.photos == photos
      ensures selectedPhoto == None && currentIndex == 0
      ensures Valid()
    {
      this.photos := photos;
      selectedPhoto := None;
      currentIndex := 0;
    }

    /** `openLightbox(photo, index)`: stores both values as given. */
    method OpenLightbox(photo: HobbyPhoto, index: int)
      modifies this
      ensures selectedPhoto == Some(photo) && currentIndex == index
    {
      selectedPhoto := Some(photo);
      currentIndex := index;
    }

    /** A click on the grid tile at `index` calls `openLightbox(photos[index], index)`. */
    method ClickTile(index: int)
      requires 0 <= index < |photos|
      modifies this
      ensures selectedPhoto == Some(photos[index]) && currentIndex == index
      ensures Valid()
    {
      OpenLightbox(photos[index], index);
    }

    /** `closeLightbox`: hides the photo and keeps the index. */
    method CloseLightbox()
      requires Valid()
      modifies this
      ensures selectedPhoto == None && currentIndex == old(currentIndex)
      ensures Valid()
    {
      selectedPhoto := None;
    }

    /** `navigatePhoto(direction)`; its buttons are only rendered while a
        photo is selected. */
    method NavigatePhoto(direction: Direction)
      requires Valid() && selectedPhoto.Some?
      modifies this
      ensures currentIndex == Step(direction, old(currentIndex), |photos|)
      ensures selectedPhoto == Some(photos[currentIndex])
      ensures Valid()
    {
      var newIndex := Step(direction, currentIndex, |photos|);
      currentIndex := newIndex;
      selectedPhoto := Some(photos[newIndex]);
    }

    /** The counter under the open photo: `currentIndex + 1` of `photos.length`. */
    function Counter(): (c: int)
      reads this
      requires Valid() && selectedPhoto.Some?
      ensures 1 <= c <= |photos|
    {
      currentIndex + 1
    }
  }
}
