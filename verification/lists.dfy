/**
 * The two index-addressed list updates of the profile picker, written the
 * way the source writes them: a `map` and a `filter` over (element, index).
 */
module Lists {

  /** `xs.map((y, index) => index === i ? x : y)`. An index outside the list
      matches no element, so the list comes back unchanged. */
  function ReplaceAt<T>(xs: seq<T>, i: int, x: T): (r: seq<T>)
    ensures 0 <= i < |xs| ==> r == xs[i := x]
    ensures !(0 <= i < |xs|) ==> r == xs
  {
    seq(|xs|, k requires 0 <= k < |xs| => if k == i then x else xs[k])
  }

  /** `xs.filter((_, index) => index !== i)` for a list whose first element
      sits at position `offset` of the whole list. */
  function WithoutIndexFrom<T>(xs: seq<T>, i: int, offset: int): (r: seq<T>)
    ensures offset <= i < offset + |xs| ==> r == xs[..i - offset] + xs[i - offset + 1..]
    ensures !(offset <= i < offset + |xs|) ==> r == xs
    decreases |xs|
  {
    if xs == [] then []
    else (if offset == i then [] else [xs[0]]) + WithoutIndexFrom(xs[1..], i, offset + 1)
  }

  /** `xs.filter((_, index) => index !== i)`: the element at position `i` is
      dropped and the others keep their order; an out-of-range `i` drops
      nothing. */
  function RemoveAt<T>(xs: seq<T>, i: int): (r: seq<T>)
    ensures 0 <= i < |xs| ==> |r| == |xs| - 1 && r == xs[..i] + xs[i + 1..]
    ensures !(0 <= i < |xs|) ==> r == xs
  {
    WithoutIndexFrom(xs, i, 0)
  }
}
