/**
  Geometry of the widget: the width of the content strip and the largest
  offset it can be scrolled by, from the measured boxes of the inner wrapper
  and of its first and last item.
*/
module Geometry {
  import opened Wrappers

  /** The horizontal part of a measured bounding box. */
  datatype Rect = Rect(x: int, width: int)

  /** What the constructor stores after measuring. */
  datatype Measurement = Measurement(innerWidth: int, maxMarginLeft: nat)

  /** Measuring fails when the inner wrapper has no element child to read a box from. */
  datatype MeasureError = NoItems

  /** Right edge of a box. */
  function Right(r: Rect): int {
    r.x + r.width
  }

  /**
    The content span runs from the left edge of the first item to the right
    edge of the last; the largest offset is that span less the width of the
    inner wrapper's own box, floored at zero. (That box is as wide as the
    visible area only under the widget's stylesheet, which is not modelled.)
  */
  function Measure(innerBoxWidth: int, items: seq<Rect>): (r: Result<Measurement, MeasureError>)
    ensures |items| == 0 <==> r.Failure?
    ensures r.Success? ==> r.value.innerWidth == Right(items[|items| - 1]) - items[0].x
    ensures r.Success? ==> r.value.maxMarginLeft >= r.value.innerWidth - innerBoxWidth
    ensures r.Success? ==>
      r.value.maxMarginLeft == 0 || r.value.maxMarginLeft == r.value.innerWidth - innerBoxWidth
    ensures r.Success? ==> (r.value.maxMarginLeft == 0 <==> r.value.innerWidth <= innerBoxWidth)
  {
    if |items| == 0 then Failure(NoItems)
    else
      var first := items[0];
      var last := items[|items| - 1];
      var innerWidth := last.x + last.width - first.x;
      var maxMarginLeft := innerWidth - innerBoxWidth;
      Success(Measurement(innerWidth, if maxMarginLeft < 0 then 0 else maxMarginLeft))
  }

  /** Items laid out side by side, each starting where the previous one ends. */
  ghost predicate Contiguous(items: seq<Rect>) {
    forall i :: 0 < i < |items| ==> items[i].x == Right(items[i - 1])
  }

  /** Sum of the item widths. */
  function TotalWidth(items: seq<Rect>): int {
    if |items| == 0 then 0 else TotalWidth(items[..|items| - 1]) + items[|items| - 1].width
  }

  /** For side-by-side items the measured span is exactly the sum of their widths. */
  lemma {:induction false} ContiguousSpanIsTotalWidth(items: seq<Rect>)
    requires |items| > 0
    requires Contiguous(items)
    ensures Right(items[|items| - 1]) - items[0].x == TotalWidth(items)
  {
    if |items| > 1 {
      var init := items[..|items| - 1];
      assert Contiguous(init) by {
        forall i | 0 < i < |init|
          ensures init[i].x == Right(init[i - 1])
        {
          assert init[i] == items[i] && init[i - 1] == items[i - 1];
        }
      }
      ContiguousSpanIsTotalWidth(init);
      assert init[0] == items[0];
      assert init[|init| - 1] == items[|items| - 2];
    } else {
      assert items[..0] == [];
    }
  }

  /** Content no wider than the inner wrapper's own box gives a widget that cannot scroll. */
  lemma NarrowContentIsUnscrollable(innerBoxWidth: int, items: seq<Rect>)
    requires |items| > 0
    requires Contiguous(items)
    requires TotalWidth(items) <= innerBoxWidth
    ensures Measure(innerBoxWidth, items).Success?
    ensures Measure(innerBoxWidth, items).value.maxMarginLeft == 0
  {
    ContiguousSpanIsTotalWidth(items);
  }
}
