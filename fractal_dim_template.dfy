/**
 * The fractal description page: scrolling its content past 50 pixels
 * switches to compact mode, which shrinks the carousel from 70% to 40% of
 * the page height, and scrolling back above 20 pixels switches back. The
 * gap between the two thresholds keeps the mode from flickering.
 */
module FractalDimTemplate {

  /** Compact mode switches on strictly beyond this scroll offset. */
  const CompactAbove: real := 50.0
  /** Compact mode switches off strictly before this scroll offset. */
  const ExpandBelow: real := 20.0

  /**
   * `handleScroll`: the value of `isCompact` after a scroll event at
   * `scrollTop`. Compact mode turns on only beyond 50 and off only below
   * 20; between the thresholds, both included, the mode stays as it is.
   */
  function HandleScroll(isCompact: bool, scrollTop: real): (next: bool)
    ensures !isCompact ==> (next <==> scrollTop > CompactAbove)
    ensures isCompact ==> (!next <==> scrollTop < ExpandBelow)
    ensures ExpandBelow <= scrollTop <= CompactAbove ==> next == isCompact
  {
    if scrollTop > CompactAbove && !isCompact then true
    else if scrollTop < ExpandBelow && isCompact then false
    else isCompact
  }

  /** A second event at the same offset changes nothing. */
  lemma ScrollIdempotent(isCompact: bool, scrollTop: real)
    ensures HandleScroll(HandleScroll(isCompact, scrollTop), scrollTop) == HandleScroll(isCompact, scrollTop)
  {
  }

  /** The carousel section's height, in percent of the page. */
  function CarouselHeight(isCompact: bool): (h: nat)
    ensures h == 40 <==> isCompact
    ensures h == 70 <==> !isCompact
  {
    if isCompact then 40 else 70
  }
}
