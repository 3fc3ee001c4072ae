/**
 * The image carousel: `currentIndex` steps round a ring of `n` slides, a
 * click on the current slide follows its link and a click on any other
 * slide makes it current, and each slide is classed by where it sits
 * relative to the current one.
 */
module ImageCarousel {

  /** `(prevIndex + 1) % items.length`. */
  function NextIndex(i: nat, n: nat): (j: nat)
    requires n > 0
    ensures j < n
    ensures i < n ==> j == if i + 1 < n then i + 1 else 0
  {
    if i < n then WrapOnce(i + 1, n); (i + 1) % n else (i + 1) % n
  }

  /** Below twice the modulus, `%` subtracts the modulus at most once. */
  lemma WrapOnce(k: int, n: int)
    requires n > 0 && 0 <= k < 2 * n
    ensures k % n == if k < n then k else k - n
  {
    var q, r := k / n, k % n;
    assert k == q * n + r && 0 <= r < n;
    QuotientBounds(q, n);
    assert q == 0 || q == 1;
  }

  lemma QuotientBounds(q: int, n: int)
    requires n > 0
    ensures q <= -1 ==> q * n <= -n
    ensures q >= 2 ==> q * n >= 2 * n
  {
  }

  /** `(prevIndex - 1 + items.length) % items.length`. */
  function PrevIndex(i: nat, n: nat): (j: nat)
    requires n > 0
    ensures j < n
    ensures i < n ==> j == if i > 0 then i - 1 else n - 1
  {
    if i < n then WrapOnce(i - 1 + n, n); (i - 1 + n) % n else (i - 1 + n) % n
  }

  /** `prev` undoes `next`, and `next` undoes `prev`. */
  lemma NextPrevInverse(i: nat, n: nat)
    requires i < n
    ensures PrevIndex(NextIndex(i, n), n) == i
    ensures NextIndex(PrevIndex(i, n), n) == i
  {
  }

  /** The index after `k` presses of the next button. */
  function NextTimes(i: nat, n: nat, k: nat): (j: nat)
    requires n > 0
    ensures j < n || (k == 0 && j == i)
  {
    if k == 0 then i else NextIndex(NextTimes(i, n, k - 1), n)
  }

  /** Up to `n` presses move `k` places round the ring. */
  lemma {:induction false} NextTimesMoves(i: nat, n: nat, k: nat)
    requires i < n && k <= n
    ensures NextTimes(i, n, k) == if i + k < n then i + k else i + k - n
  {
    if k > 0 {
      NextTimesMoves(i, n, k - 1);
    }
  }

  /** `n` presses of the next button come back to the starting slide. */
  lemma FullTurnReturns(i: nat, n: nat)
    requires i < n
    ensures NextTimes(i, n, n) == i
  {
    NextTimesMoves(i, n, n);
  }

  /** What a click on a slide does. */
  datatype Click = Navigate(link: string) | Select(index: nat)

  /** `handleImageClick`: follow the link of the current slide, otherwise select the clicked one. */
  function HandleImageClick(current: nat, link: string, index: nat): (c: Click)
    ensures c.Navigate? <==> index == current
    ensures c.Navigate? ==> c.link == link
    ensures c.Select? ==> c.index == index && c.index != current
  {
    if index == current then Navigate(link) else Select(index)
  }

  /** The class `getSlideClass` gives a slide. */
  datatype SlideClass = Active | Prev | Next | Hidden

  /** The tests come in order: current, then the one before it, then the one after it. */
  function GetSlideClass(index: nat, current: nat, n: nat): SlideClass
    requires n > 0
  {
    if index == current then Active
    else if index == PrevIndex(current, n) then Prev
    else if index == NextIndex(current, n) then Next
    else Hidden
  }

  /** Exactly one slide is active: the current one. */
  lemma ActiveIsCurrent(index: nat, current: nat, n: nat)
    requires n > 0
    ensures GetSlideClass(index, current, n) == Active <==> index == current
  {
  }

  /** With three slides or more, exactly one slide is classed prev and exactly one next. */
  lemma PrevAndNextAreUnique(index: nat, current: nat, n: nat)
    requires n >= 3 && current < n
    ensures GetSlideClass(index, current, n) == Prev <==> index == PrevIndex(current, n)
    ensures GetSlideClass(index, current, n) == Next <==> index == NextIndex(current, n)
  {
  }

  /** With two slides the other slide is both before and after the current one; the prev test wins. */
  lemma TwoSlidesHaveNoNext(current: nat)
    requires current < 2
    ensures GetSlideClass(1 - current, current, 2) == Prev
    ensures GetSlideClass(0, current, 2) != Next && GetSlideClass(1, current, 2) != Next
  {
  }

  /** What the carousel renders. */
  datatype View = NoImages | Slides(classes: seq<SlideClass>)

  /** An empty list shows the "No images to display" message; otherwise every slide gets its class. */
  function Render(n: nat, current: nat): (v: View)
    ensures v.NoImages? <==> n == 0
    ensures v.Slides? ==> |v.classes| == n
    ensures v.Slides? ==> forall i :: 0 <= i < n ==> (v.classes[i] == Active <==> i == current)
  {
    if n == 0 then NoImages else Slides(seq(n, i requires 0 <= i < n => GetSlideClass(i, current, n)))
  }
}
