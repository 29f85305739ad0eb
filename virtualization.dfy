/**
 * Virtual scrolling: which slice of a long list of fixed-height rows is
 * rendered for a scroll position, in the component and in the hook.
 *
 * Positions and heights are integers (pixels); `Math.floor` and
 * `Math.ceil` of a quotient by a positive row height are written out.
 */
module Virtualization {
  import opened Common

  const DefaultOverscan: int := 5

  /** `Math.floor(a / b)` for `b > 0` (Dafny's division already rounds down for a positive divisor). */
  function FloorDiv(a: int, b: int): (q: int)
    requires b > 0
    ensures q * b <= a < (q + 1) * b
  {
    a / b
  }

  /** `Math.ceil(a / b)` for `b > 0`. */
  function CeilDiv(a: int, b: int): (q: int)
    requires b > 0
    ensures (q - 1) * b < a <= q * b
  {
    -((-a) / b)
  }

  function Max(a: int, b: int): int { if a >= b then a else b }
  function Min(a: int, b: int): int { if a <= b then a else b }

  /** What the component renders: the index range and the rows in it. */
  datatype ScrollerRange<T> = ScrollerRange(startIndex: int, endIndex: int, visibleItems: seq<T>)

  /** The component's range for a scroll position; scroll offset, container height and overscan are not negative. */
  function ScrollerVisibleRange<T>(items: seq<T>, itemHeight: int, containerHeight: int, scrollTop: int,
                                   overscan: int := DefaultOverscan): (r: ScrollerRange<T>)
    requires itemHeight > 0 && containerHeight >= 0 && scrollTop >= 0 && overscan >= 0
    ensures 0 <= r.startIndex && r.endIndex <= |items|
    ensures r.startIndex == Max(0, FloorDiv(scrollTop, itemHeight) - overscan)
    ensures r.endIndex == Min(|items|, CeilDiv(scrollTop + containerHeight, itemHeight) + overscan)
    ensures r.startIndex < r.endIndex ==> r.visibleItems == items[r.startIndex..r.endIndex]
    ensures r.startIndex >= r.endIndex ==> r.visibleItems == []
  {
    var startIdx := Max(0, FloorDiv(scrollTop, itemHeight) - overscan);
    var endIdx := Min(|items|, CeilDiv(scrollTop + containerHeight, itemHeight) + overscan);
    ScrollerRange(startIdx, endIdx, Slice(items, startIdx, endIdx))
  }

  /** The component's inner height. */
  function TotalHeight(count: nat, itemHeight: int): int
  {
    count * itemHeight
  }

  /** The component's offset of the first rendered row. */
  function OffsetY(startIndex: int, itemHeight: int): int
  {
    startIndex * itemHeight
  }

  /** Every row that overlaps the viewport is rendered, and the rendered rows are the items of the index range, in order. */
  lemma {:induction false} ViewportCovered<T>(items: seq<T>, itemHeight: int, containerHeight: int,
                                               scrollTop: int, overscan: int)
    requires itemHeight > 0 && containerHeight >= 0 && scrollTop >= 0 && overscan >= 0
    ensures var r := ScrollerVisibleRange(items, itemHeight, containerHeight, scrollTop, overscan);
      forall i :: (0 <= i < |items| && i * itemHeight < scrollTop + containerHeight
                   && scrollTop < (i + 1) * itemHeight) ==> r.startIndex <= i < r.endIndex
  {
    var f := FloorDiv(scrollTop, itemHeight);
    var c := CeilDiv(scrollTop + containerHeight, itemHeight);
    forall i | 0 <= i < |items| && i * itemHeight < scrollTop + containerHeight && scrollTop < (i + 1) * itemHeight
      ensures f <= i < c
    {
      RowBefore(f, i + 1, itemHeight);
      RowBefore(i, c, itemHeight);
    }
  }

  /** For a positive height, `a * h < b * h` orders `a` before `b`. */
  lemma RowBefore(a: int, b: int, h: int)
    requires h > 0 && a * h < b * h
    ensures a < b
  {
  }

  /** The hook's options; an absent overscan means 5. */
  datatype Options = Options(itemHeight: int, containerHeight: int, overscan: Option<int>)

  datatype VisibleRange<T> = VisibleRange(
    startIndex: int,
    endIndex: int,
    visibleItems: seq<T>,
    totalHeight: int,
    offsetY: int)

  /** The hook's range, with the total height and the offset of the first rendered row. */
  function UseVirtualList<T>(items: seq<T>, options: Options, scrollTop: int): (r: VisibleRange<T>)
    requires options.itemHeight > 0 && options.containerHeight >= 0 && scrollTop >= 0
    requires options.overscan.Some? ==> options.overscan.value >= 0
    ensures 0 <= r.startIndex && r.endIndex <= |items|
    ensures r.totalHeight == |items| * options.itemHeight
    ensures r.offsetY == r.startIndex * options.itemHeight
  {
    var overscan := if options.overscan.Some? then options.overscan.value else DefaultOverscan;
    var startIndex := Max(0, FloorDiv(scrollTop, options.itemHeight) - overscan);
    var endIndex := Min(|items|, CeilDiv(scrollTop + options.containerHeight, options.itemHeight) + overscan);
    VisibleRange(startIndex, endIndex, Slice(items, startIndex, endIndex),
                 |items| * options.itemHeight, startIndex * options.itemHeight)
  }

  /** The hook and the component agree on the range, the rows, the height and the offset, with the same default overscan. */
  lemma HookMatchesComponent<T>(items: seq<T>, itemHeight: int, containerHeight: int, scrollTop: int, overscan: Option<int>)
    requires itemHeight > 0 && containerHeight >= 0 && scrollTop >= 0
    requires overscan.Some? ==> overscan.value >= 0
    ensures var h := UseVirtualList(items, Options(itemHeight, containerHeight, overscan), scrollTop);
      var c := if overscan.Some? then ScrollerVisibleRange(items, itemHeight, containerHeight, scrollTop, overscan.value)
               else ScrollerVisibleRange(items, itemHeight, containerHeight, scrollTop);
      h.startIndex == c.startIndex && h.endIndex == c.endIndex && h.visibleItems == c.visibleItems
      && h.totalHeight == TotalHeight(|items|, itemHeight) && h.offsetY == OffsetY(c.startIndex, itemHeight)
  {
  }
}
