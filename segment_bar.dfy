/** The segmented bars both screens draw with `Array.from({ length: n }).map(...)`:
    segment `index` is coloured when `index` is below a threshold and grey
    otherwise, and the two end segments are rounded off. */
module SegmentBar {

  /** Background class of a segment that is not filled. */
  const EmptyBackground: string := "bg-gray-300"

  /** Corner style of a segment: `rounded-l-full`, `rounded-r-full` or none. */
  datatype Corner = RoundedLeft | RoundedRight | Square

  /** One rendered segment: its background class and its corner style. */
  datatype Segment = Segment(background: string, corner: Corner)

  /** `index === 0 ? "rounded-l-full" : index === last ? "rounded-r-full" : ""` */
  function CornerAt(index: nat, last: nat): Corner
  {
    if index == 0 then RoundedLeft else if index == last then RoundedRight else Square
  }

  /** `k` clamped to the interval [lo, hi]. */
  function Clamp(k: int, lo: int, hi: int): (r: int)
    requires lo <= hi
    ensures lo <= r <= hi
    ensures lo <= k <= hi ==> r == k
    ensures k < lo ==> r == lo
    ensures hi < k ==> r == hi
  {
    if k < lo then lo else if hi < k then hi else k
  }

  /** Number of segments of `bar` that are not grey. */
  function CountFilled(bar: seq<Segment>): nat
  {
    if bar == [] then 0
    else CountFilled(bar[..|bar| - 1]) + (if bar[|bar| - 1].background != EmptyBackground then 1 else 0)
  }

  /** A bar whose segment `i` is filled exactly when `i < k` */
  ghost predicate FilledBelow(bar: seq<Segment>, k: int)
  {
    forall i :: 0 <= i < |bar| ==> (bar[i].background != EmptyBackground <==> i < k)
  }

  /** A bar filled below `k` shows exactly `k` clamped to [0, |bar|] filled segments. */
  lemma {:induction false} FilledBelowCount(bar: seq<Segment>, k: int)
    requires FilledBelow(bar, k)
    ensures CountFilled(bar) == Clamp(k, 0, |bar|)
  {
    if bar != [] {
      var prefix := bar[..|bar| - 1];
      assert FilledBelow(prefix, k) by {
        forall i | 0 <= i < |prefix|
          ensures prefix[i].background != EmptyBackground <==> i < k
        {
          assert prefix[i] == bar[i];
        }
      }
      FilledBelowCount(prefix, k);
    }
  }
}
