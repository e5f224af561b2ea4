/** The about page: the team carousel's index arithmetic, the set of flipped
    cards, the initials shown when a cofounder has no avatar, and the guard
    that shows a loading view while the cofounder list is empty. */
module About {
  import opened Wrappers
  import opened JsNumber

  /** A row of the `cofounders` table. */
  datatype Cofounder = Cofounder(
    id: string,
    name: string,
    title: string,
    bio: string,
    avatarUrl: Option<string>,
    orderIndex: int,
    createdAt: string)

  /** `(prev + 1) % n` */
  function NextIndex(prev: int, n: int): (r: int)
    requires n > 0
    ensures 0 <= prev < n ==> 0 <= r < n
    ensures 0 <= prev < n - 1 ==> r == prev + 1
    ensures prev == n - 1 ==> r == 0
  {
    JsRem(prev + 1, n)
  }

  /** `(prev - 1 + n) % n` */
  function PrevIndex(prev: int, n: int): (r: int)
    requires n > 0
    ensures 0 <= prev < n ==> 0 <= r < n
    ensures 0 < prev < n ==> r == prev - 1
    ensures prev == 0 ==> r == n - 1
  {
    JsRem(prev - 1 + n, n)
  }

  /** Going back undoes going forward, and going forward undoes going back. */
  lemma PrevUndoesNext(i: int, n: int)
    requires 0 <= i < n
    ensures PrevIndex(NextIndex(i, n), n) == i
    ensures NextIndex(PrevIndex(i, n), n) == i
  {
  }

  /** The index after `k` presses of the next button. */
  function NextTimes(i: int, n: int, k: nat): int
    requires n > 0
  {
    if k == 0 then i else NextIndex(NextTimes(i, n, k - 1), n)
  }

  /** Up to n presses move forward by k places, wrapping past the end once. */
  lemma {:induction false} NextTimesShift(i: int, n: int, k: nat)
    requires 0 <= i < n && k <= n
    ensures NextTimes(i, n, k) == if i + k < n then i + k else i + k - n
  {
    if k > 0 {
      NextTimesShift(i, n, k - 1);
    }
  }

  /** n presses of the next button come back to the starting card. */
  lemma NextCycleReturns(i: int, n: int)
    requires 0 <= i < n
    ensures NextTimes(i, n, n) == i
  {
    NextTimesShift(i, n, n);
  }

  /** `toggleFlip(id)` on a set: `id` is added when absent and removed when
      present, and no other id changes. */
  function Toggled(flipped: set<string>, id: string): (r: set<string>)
    ensures id in r <==> id !in flipped
    ensures forall x :: x != id ==> (x in r <==> x in flipped)
  {
    if id in flipped then flipped - {id} else flipped + {id}
  }

  /** Clicking the same card twice restores the flipped set. */
  lemma ToggleTwice(flipped: set<string>, id: string)
    ensures Toggled(Toggled(flipped, id), id) == flipped
  {
  }

  /** `name.split(' ')`: the parts between single spaces, empty ones included. */
  function SplitSpaces(s: string): (parts: seq<string>)
    ensures |parts| >= 1
    ensures forall i :: 0 <= i < |parts| ==> ' ' !in parts[i]
  {
    if s == [] then [""]
    else
      var rest := SplitSpaces(s[1..]);
      if s[0] == ' ' then [""] + rest else [[s[0]] + rest[0]] + rest[1..]
  }

  /** `.map(n => n[0]).join('')`: an empty part yields `undefined`, which `join`
      writes as nothing. */
  function FirstChars(parts: seq<string>): (r: string)
    ensures |r| <= |parts|
    ensures (forall j :: 0 <= j < |parts| ==> parts[j] != "") ==>
              |r| == |parts| && forall j :: 0 <= j < |parts| ==> r[j] == parts[j][0]
  {
    if parts == [] then ""
    else (if parts[0] == "" then "" else [parts[0][0]]) + FirstChars(parts[1..])
  }

  /** The initials shown in place of a missing avatar. */
  function Initials(name: string): (r: string)
    ensures |r| <= |name|
    ensures forall i :: 0 <= i < |r| ==> r[i] != ' ' && r[i] in name
  {
    FirstCharsOfSplit(name);
    FirstChars(SplitSpaces(name))
  }

  /** The characters of `s` that start a word: not a space, and at the start or
      after a space (`afterSpace` says whether the position before `s` counts as one). */
  function WordStarts(s: string, afterSpace: bool): (r: string)
    ensures |r| <= |s|
    ensures forall i :: 0 <= i < |r| ==> r[i] != ' ' && r[i] in s
  {
    if s == [] then ""
    else (if afterSpace && s[0] != ' ' then [s[0]] else "") + WordStarts(s[1..], s[0] == ' ')
  }

  lemma {:induction false} FirstCharsOfSplit(s: string)
    ensures FirstChars(SplitSpaces(s)) == WordStarts(s, true)
    ensures FirstChars(SplitSpaces(s)[1..]) == WordStarts(s, false)
  {
    if s != [] {
      var rest := SplitSpaces(s[1..]);
      FirstCharsOfSplit(s[1..]);
      if s[0] == ' ' {
        assert SplitSpaces(s) == [""] + rest;
        assert SplitSpaces(s)[1..] == rest;
      } else {
        var parts := [[s[0]] + rest[0]] + rest[1..];
        assert SplitSpaces(s) == parts;
        assert parts[1..] == rest[1..];
      }
    }
  }

  /** The initials are the first character of every non-empty space-separated
      part, in order: exactly the characters that start a word. */
  lemma InitialsAreWordStarts(name: string)
    ensures Initials(name) == WordStarts(name, true)
  {
    FirstCharsOfSplit(name);
  }

  /** What the front of a card shows: the avatar, or the initials without one. */
  datatype Badge = Avatar(url: string) | InitialsBadge(text: string)

  function BadgeFor(c: Cofounder): (b: Badge)
    ensures b.Avatar? <==> Truthy(c.avatarUrl)
    ensures b.Avatar? ==> b.url == c.avatarUrl.value
    ensures b.InitialsBadge? ==> b.text == Initials(c.name)
  {
    if Truthy(c.avatarUrl) then Avatar(c.avatarUrl.value) else InitialsBadge(Initials(c.name))
  }

  /** The view the page renders: the loading spinner, or the carousel showing
      one card together with its previous and next buttons. */
  datatype Screen = LoadingTeam | Carousel(shown: Cofounder, badge: Badge)

  /** The page's state. */
  class AboutPage {
    var cofounders: seq<Cofounder>
    var currentIndex: int
    var flipped: set<string>

    /** The index names a card whenever there is one, and stays 0 while the list is empty. */
    predicate Valid()
      reads this
    {
      0 <= currentIndex && (if cofounders == [] then currentIndex == 0 else currentIndex < |cofounders|)
    }

    constructor ()
      ensures Valid() && cofounders == [] && currentIndex == 0 && flipped == {}
    {
      cofounders := [];
      currentIndex := 0;
      flipped := {};
    }

    /** The fetch run once at mount: an error is only logged; otherwise the rows
        replace the list (`data || []`). */
    method CofoundersFetched(data: Nullable<seq<Cofounder>>, failed: bool)
      requires Valid() && cofounders == []
      modifies this
      ensures Valid()
      ensures cofounders == if !failed && data.Present? then data.value else []
      ensures currentIndex == old(currentIndex) && flipped == old(flipped)
    {
      if !failed {
        cofounders := if data.Present? then data.value else [];
      }
    }

    /** The rendered view; the empty list renders the loading view, so the
        carousel and its buttons exist only when there is a card to show. */
    function Render(): (v: Screen)
      requires Valid()
      reads this
      ensures v.LoadingTeam? <==> cofounders == []
      ensures v.Carousel? ==> v.shown == cofounders[currentIndex] && v.badge == BadgeFor(v.shown)
    {
      if cofounders == [] then LoadingTeam
      else Carousel(cofounders[currentIndex], BadgeFor(cofounders[currentIndex]))
    }

    /** `nextSlide`, reachable only through the carousel's button. */
    method NextSlide()
      requires Valid() && Render().Carousel?
      modifies this
      ensures cofounders == old(cofounders) && flipped == old(flipped)
      ensures Valid()
      ensures currentIndex == NextIndex(old(currentIndex), |cofounders|)
    {
      currentIndex := NextIndex(currentIndex, |cofounders|);
    }

    /** `prevSlide`, reachable only through the carousel's button. */
    method PrevSlide()
      requires Valid() && Render().Carousel?
      modifies this
      ensures cofounders == old(cofounders) && flipped == old(flipped)
      ensures Valid()
      ensures currentIndex == PrevIndex(old(currentIndex), |cofounders|)
    {
      currentIndex := PrevIndex(currentIndex, |cofounders|);
    }

    /** A dot button: `setCurrentIndex(index)` for the index of one of the cards. */
    method GoToSlide(i: int)
      requires Valid() && 0 <= i < |cofounders|
      modifies this
      ensures cofounders == old(cofounders) && flipped == old(flipped)
      ensures Valid()
      ensures currentIndex == i && Render() == Carousel(cofounders[i], BadgeFor(cofounders[i]))
    {
      currentIndex := i;
    }

    /** `toggleFlip(id)`: copies the set, adds or deletes `id` in the copy, and
        stores the copy. */
    method ToggleFlip(id: string)
      requires Valid()
      modifies this
      ensures Valid()
      ensures flipped == Toggled(old(flipped), id)
      ensures cofounders == old(cofounders) && currentIndex == old(currentIndex)
    {
      var next := flipped;
      if id in next {
        next := next - {id};
      } else {
        next := next + {id};
      }
      flipped := next;
    }
  }
}
