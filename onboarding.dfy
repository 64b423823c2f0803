/** The onboarding carousel: three slides, a current index set when a swipe
    settles, "Next" that scrolls on or completes, and completion recorded in
    the device's key-value storage, which the root layout reads back. */
module Onboarding {
  import opened Common

  datatype Slide = Slide(id: string, title: string)

  /** `slides` */
  const Slides: seq<Slide> := [
    Slide("1", "Shop Quality Tech"),
    Slide("2", "Fast Delivery & Tracking"),
    Slide("3", "Secure Payments")]

  /** The storage key of the completion flag. */
  const SeenKey := "hasSeenOnboarding"

  /** The root layout's read-back: `getItem(key) === 'true'`, so a missing
      key counts as not seen. */
  predicate HasSeenOnboarding(entries: map<string, string>) {
    SeenKey in entries && entries[SeenKey] == "true"
  }

  /** The device's key-value storage. */
  class KeyValueStorage {
    var entries: map<string, string>

    /** `setItem(key, value)` */
    method SetItem(key: string, value: string)
      modifies this
      ensures entries == old(entries)[key := value]
    {
      entries := entries[key := value];
    }
  }

  /** What pressing "Next" does on a given slide. */
  datatype NextOutcome = ScrollTo(index: int) | Complete

  /** `handleNext`: scroll to the following slide, or complete on the last one. */
  function NextFor(currentIndex: int): NextOutcome {
    if currentIndex < |Slides| - 1 then ScrollTo(currentIndex + 1) else Complete
  }

  /** From the first slide, "Next" scrolls to the second and the third, and
      completes on the third; it never scrolls past the last slide. */
  lemma NextProgression(i: int)
    requires 0 <= i < |Slides|
    ensures NextFor(i).ScrollTo? ==> NextFor(i).index == i + 1 < |Slides|
    ensures NextFor(i) == Complete <==> i == |Slides| - 1
    ensures NextFor(0) == ScrollTo(1) && NextFor(1) == ScrollTo(2) && NextFor(2) == Complete
  {
  }

  /** The buttons under the carousel. */
  datatype Buttons = SkipAndNext | GetStarted

  /** `currentIndex < slides.length - 1 ? (Skip, Next) : Get Started` */
  function ButtonsFor(currentIndex: int): Buttons {
    if currentIndex < |Slides| - 1 then SkipAndNext else GetStarted
  }

  /** "Get Started" is shown exactly where "Next" would complete, so the
      visible buttons either all complete or offer Skip beside a scroll. */
  lemma ButtonsMatchNext(i: int)
    ensures ButtonsFor(i) == GetStarted <==> NextFor(i) == Complete
  {
  }

  /** The pagination dots: the one at the current index is highlighted. */
  function Dots(currentIndex: int): (r: seq<bool>)
    ensures |r| == |Slides|
    ensures forall k :: 0 <= k < |r| ==> (r[k] <==> k == currentIndex)
  {
    seq(|Slides|, k => k == currentIndex)
  }

  /** The number of highlighted dots. */
  function CountLit(dots: seq<bool>): nat {
    if dots == [] then 0 else (if dots[0] then 1 else 0) + CountLit(dots[1..])
  }

  /** A sequence with `true` at one position only has exactly one `true`. */
  lemma {:induction false} CountSingle(dots: seq<bool>, i: int)
    requires forall k :: 0 <= k < |dots| ==> (dots[k] <==> k == i)
    ensures CountLit(dots) == if 0 <= i < |dots| then 1 else 0
  {
    if dots != [] {
      CountSingle(dots[1..], i - 1);
    }
  }

  /** Exactly one dot is highlighted for an index on the carousel, and none
      for an index off it. */
  lemma ExactlyOneDot(currentIndex: int)
    ensures 0 <= currentIndex < |Slides| ==> CountLit(Dots(currentIndex)) == 1
    ensures !(0 <= currentIndex < |Slides|) ==> CountLit(Dots(currentIndex)) == 0
  {
    CountSingle(Dots(currentIndex), currentIndex);
  }

  /** The screen's state: the current index, the last scroll it requested
      and whether it navigated on to the welcome screen. */
  class OnboardingScreen {
    const storage: KeyValueStorage
    var currentIndex: int
    var scrollRequest: Option<int>
    var navigatedAway: bool

    /** The carousel opens on the first slide. */
    constructor (storage: KeyValueStorage)
      ensures this.storage == storage && currentIndex == 0 && scrollRequest == None && !navigatedAway
    {
      this.storage := storage;
      currentIndex := 0;
      scrollRequest := None;
      navigatedAway := false;
    }

    /** `onMomentumScrollEnd`: the index the settled page reports, already
        rounded. Only a settled swipe changes the current index. */
    method OnScrollEnd(index: int)
      modifies this`currentIndex
      ensures currentIndex == index
    {
      currentIndex := index;
    }

    /** `handleComplete()` (Skip, Get Started, or Next on the last slide):
        stores the flag, then navigates; a failing write only logs. */
    method HandleComplete(reply: Reply)
      modifies storage, this`navigatedAway
      ensures reply.Resolved? ==> storage.entries == old(storage.entries)[SeenKey := "true"] && navigatedAway
      ensures reply.Resolved? ==> HasSeenOnboarding(storage.entries)
      ensures reply.Rejected? ==> unchanged(storage) && navigatedAway == old(navigatedAway)
    {
      if reply.Resolved? {
        storage.SetItem(SeenKey, "true");
        navigatedAway := true;
      }
    }

    /** `handleNext()`: asks the list to scroll one slide on, or completes. */
    method HandleNext(reply: Reply)
      modifies storage, this`scrollRequest, this`navigatedAway
      ensures NextFor(currentIndex).ScrollTo? ==>
                scrollRequest == Some(currentIndex + 1) && unchanged(storage) && navigatedAway == old(navigatedAway)
      ensures NextFor(currentIndex) == Complete ==> scrollRequest == old(scrollRequest)
      ensures NextFor(currentIndex) == Complete && reply.Resolved? ==>
                storage.entries == old(storage.entries)[SeenKey := "true"] && HasSeenOnboarding(storage.entries) && navigatedAway
      ensures NextFor(currentIndex) == Complete && reply.Rejected? ==> unchanged(storage) && navigatedAway == old(navigatedAway)
    {
      if currentIndex < |Slides| - 1 {
        scrollRequest := Some(currentIndex + 1);
      } else {
        HandleComplete(reply);
      }
    }
  }
}
