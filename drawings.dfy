/**
 * The drawing list of the application state and the three per-drawing reducers of the
 * drawing cards: remove, scale input and offset change.
 */
module Drawings {
  import opened Wrappers
  import opened Dimensions
  import opened Preview

  /** One uploaded drawing with its placement (`svgs[i]`). */
  datatype Drawing = Drawing(content: string, filename: string, dimensions: Overrides,
                             scale: real, offset: Point)

  /** Every drawing has a positive scale: the default is 1 and only positive input is taken. */
  predicate ScalesPositive(svgs: seq<Drawing>) {
    forall i :: 0 <= i < |svgs| ==> svgs[i].scale > 0.0
  }

  /** `svgs.remove(i)`: exactly drawing `i` is gone, the others keep their order. */
  function Removed(svgs: seq<Drawing>, i: nat): (r: seq<Drawing>)
    requires i < |svgs|
    ensures |r| == |svgs| - 1
    ensures forall j :: 0 <= j < i ==> r[j] == svgs[j]
    ensures forall j :: i <= j < |r| ==> r[j] == svgs[j + 1]
    ensures multiset(r) + multiset{svgs[i]} == multiset(svgs)
  {
    assert svgs == svgs[..i] + [svgs[i]] + svgs[i + 1..];
    svgs[..i] + svgs[i + 1..]
  }

  /** The scale input takes a value only when it parsed and is greater than zero. */
  predicate ScaleAccepted(input: Option<real>) {
    input.Some? && input.value > 0.0
  }

  /**
   * `scale_oninput` on drawing `i`: an accepted value replaces that drawing's scale and
   * nothing else; any other input leaves the whole list as it was. The list is indexed
   * only when the value is accepted.
   */
  function WithScale(svgs: seq<Drawing>, i: nat, input: Option<real>): (r: seq<Drawing>)
    requires ScaleAccepted(input) ==> i < |svgs|
    ensures |r| == |svgs|
    ensures !ScaleAccepted(input) ==> r == svgs
    ensures ScaleAccepted(input) ==>
      r[i].scale == input.value && r[i] == svgs[i].(scale := r[i].scale)
      && forall j :: 0 <= j < |r| && j != i ==> r[j] == svgs[j]
  {
    if input.Some? && input.value > 0.0 then svgs[i := svgs[i].(scale := input.value)] else svgs
  }

  /** `on_offset_change` on drawing `i`: that drawing's offset is replaced, unconditionally. */
  function WithOffset(svgs: seq<Drawing>, i: nat, offset: Point): (r: seq<Drawing>)
    requires i < |svgs|
    ensures |r| == |svgs|
    ensures r[i].offset == offset && r[i] == svgs[i].(offset := offset)
    ensures forall j :: 0 <= j < |r| && j != i ==> r[j] == svgs[j]
  {
    svgs[i := svgs[i].(offset := offset)]
  }

  /** None of the reducers can introduce a scale that is not positive. */
  lemma ReducersKeepScalesPositive(svgs: seq<Drawing>, i: nat, input: Option<real>, offset: Point)
    requires ScalesPositive(svgs) && i < |svgs|
    ensures ScalesPositive(Removed(svgs, i))
    ensures ScalesPositive(WithScale(svgs, i, input))
    ensures ScalesPositive(WithOffset(svgs, i, offset))
  {
  }

  /** A rejected scale input (zero, negative or unparsable) changes nothing, wherever it is aimed. */
  lemma RejectedScaleChangesNothing(svgs: seq<Drawing>, i: nat, input: Option<real>)
    requires input.None? || input.value <= 0.0
    ensures WithScale(svgs, i, input) == svgs
  {
  }

  /** Moving a drawing twice is the same as moving it once to the second place. */
  lemma OffsetLastWriteWins(svgs: seq<Drawing>, i: nat, a: Point, b: Point)
    requires i < |svgs|
    ensures WithOffset(WithOffset(svgs, i, a), i, b) == WithOffset(svgs, i, b)
  {
  }
}
