/** Stacked bars.

    A stacked bar starts at an axis value and stacks its items one after
    another along the axis, each as long as its quantity; the bar ends at
    the start plus all quantities. To draw a bar, one frame per item is
    built at the running total of the quantities before it, relative to the
    screen location where the bar begins.

    The axis along which bars stack enters as its screen map
    (`modelLocToScreenLoc(x:)` for horizontal bars, `(y:)` for vertical
    ones). */
module ChartStackedBars {
  import opened ChartTypes

  /** ChartStackedBarItemModel: a quantity and its colour. */
  datatype StackedBarItem = StackedBarItem(quantity: real, bgColor: Color)

  /** ChartStackedBarModel: the constant axis value, where the bar starts
      (`axisValue1`) and ends (`axisValue2`), and its items. */
  datatype StackedBarModel = StackedBarModel(constant: AxisValue, axisValue1: AxisValue,
                                             axisValue2: AxisValue, items: seq<StackedBarItem>)

  /** ChartPointViewBarStackedFrame: one item's rectangle and colour. */
  datatype StackFrame = StackFrame(rect: Rect, color: Color)

  /** What the frame builder returns: a frame and its length along the axis. */
  datatype FrameWithLength = FrameWithLength(frame: StackFrame, length: real)

  /** The accumulator of the frame fold. */
  datatype StackState = StackState(currentTotalQuantity: real, currentTotalLength: real, frames: seq<StackFrame>)

  /** The quantities of some items, in order. */
  function Quantities(items: seq<StackedBarItem>): (r: seq<real>)
    ensures |r| == |items|
    ensures forall k :: 0 <= k < |items| ==> r[k] == items[k].quantity
  {
    seq(|items|, k requires 0 <= k < |items| => items[k].quantity)
  }

  /** `ChartStackedBarModel.init`: the bar ends at its start value with the
      quantities added in order (`start.copy(scalar)` keeps the text). */
  function NewStackedBarModel(constant: AxisValue, start: AxisValue, items: seq<StackedBarItem>): (m: StackedBarModel)
    ensures m.constant == constant && m.axisValue1 == start && m.items == items
    ensures m.axisValue2.text == start.text
  {
    StackedBarModel(constant, start, start.(scalar := SumFrom(start.scalar, Quantities(items))), items)
  }

  /** `totalQuantity`: the sum of the item quantities. */
  function TotalQuantity(m: StackedBarModel): real
  {
    SumFrom(0.0, Quantities(m.items))
  }

  /** A new bar ends at its start plus the sum of its quantities, so its
      extent is its total quantity; without items both are 0. */
  lemma BarExtentIsTotalQuantity(constant: AxisValue, start: AxisValue, items: seq<StackedBarItem>)
    ensures NewStackedBarModel(constant, start, items).axisValue2.scalar == start.scalar + Sum(Quantities(items))
    ensures TotalQuantity(NewStackedBarModel(constant, start, items)) == Sum(Quantities(items))
    ensures NewStackedBarModel(constant, start, items).axisValue2.scalar
            - NewStackedBarModel(constant, start, items).axisValue1.scalar
            == TotalQuantity(NewStackedBarModel(constant, start, items))
    ensures items == [] ==>
      TotalQuantity(NewStackedBarModel(constant, start, items)) == 0.0 &&
      NewStackedBarModel(constant, start, items).axisValue2 == start
  {
    SumFromIsSum(start.scalar, Quantities(items));
    SumFromIsSum(0.0, Quantities(items));
  }

  /** `frameBuilder`: the frame of `item` when the quantities before it add
      up to `currentTotalQuantity`. It runs from the screen location `p0` of
      that total to the location `p1` of the total with the item added, and
      is placed relative to where the bar begins on screen: at `axisValue1`
      for a positive length, at `axisValue2` otherwise. Across the axis it
      spans the bar width from 0. */
  function FrameBuilder(horizontal: bool, screenLoc: real -> real, barWidth: real, bar: StackedBarModel,
                        item: StackedBarItem, currentTotalQuantity: real): FrameWithLength
  {
    var p0 := screenLoc(currentTotalQuantity);
    var p1 := screenLoc(currentTotalQuantity + item.quantity);
    var length := p1 - p0;
    var barStart := screenLoc(if length > 0.0 then bar.axisValue1.scalar else bar.axisValue2.scalar);
    var rect := if horizontal then Rect(p0 - barStart, 0.0, length, barWidth)
                else Rect(0.0, p0 - barStart, barWidth, length);
    FrameWithLength(StackFrame(rect, item.bgColor), length)
  }

  /** Where a rectangle starts along the bar's axis. */
  function AlongStart(horizontal: bool, r: Rect): real
  {
    if horizontal then r.x else r.y
  }

  /** How long a rectangle is along the bar's axis. */
  function AlongLength(horizontal: bool, r: Rect): real
  {
    if horizontal then r.width else r.height
  }

  /** A frame's geometry: it has the item's colour, its length along the axis
      is the screen distance from the running total to the total with the
      item, it starts at the running total's location relative to where the
      bar begins, and across the axis it starts at 0 and is as wide as the
      bar. */
  lemma FrameBuilderGeometry(horizontal: bool, screenLoc: real -> real, barWidth: real, bar: StackedBarModel,
                             item: StackedBarItem, q: real)
    ensures FrameBuilder(horizontal, screenLoc, barWidth, bar, item, q).frame.color == item.bgColor
    ensures FrameBuilder(horizontal, screenLoc, barWidth, bar, item, q).length
            == screenLoc(q + item.quantity) - screenLoc(q)
    ensures AlongLength(horizontal, FrameBuilder(horizontal, screenLoc, barWidth, bar, item, q).frame.rect)
            == FrameBuilder(horizontal, screenLoc, barWidth, bar, item, q).length
    ensures AlongStart(horizontal, FrameBuilder(horizontal, screenLoc, barWidth, bar, item, q).frame.rect)
            == screenLoc(q) - screenLoc(if screenLoc(q + item.quantity) - screenLoc(q) > 0.0
                                         then bar.axisValue1.scalar else bar.axisValue2.scalar)
    ensures horizontal ==>
      FrameBuilder(horizontal, screenLoc, barWidth, bar, item, q).frame.rect.y == 0.0 &&
      FrameBuilder(horizontal, screenLoc, barWidth, bar, item, q).frame.rect.height == barWidth
    ensures !horizontal ==>
      FrameBuilder(horizontal, screenLoc, barWidth, bar, item, q).frame.rect.x == 0.0 &&
      FrameBuilder(horizontal, screenLoc, barWidth, bar, item, q).frame.rect.width == barWidth
  {
  }

  /** One step of the `stackFrames` fold. */
  function StackStep(horizontal: bool, screenLoc: real -> real, barWidth: real, bar: StackedBarModel,
                     st: StackState, item: StackedBarItem): StackState
  {
    var f := FrameBuilder(horizontal, screenLoc, barWidth, bar, item, st.currentTotalQuantity);
    StackState(st.currentTotalQuantity + item.quantity, st.currentTotalLength + f.length, st.frames + [f.frame])
  }

  /** The `stackFrames` fold over `items`, from the bar's start with no
      length and no frames. */
  function Stack(horizontal: bool, screenLoc: real -> real, barWidth: real, bar: StackedBarModel,
                 items: seq<StackedBarItem>): StackState
  {
    if items == [] then StackState(bar.axisValue1.scalar, 0.0, [])
    else StackStep(horizontal, screenLoc, barWidth, bar,
                   Stack(horizontal, screenLoc, barWidth, bar, items[..|items| - 1]), items[|items| - 1])
  }

  /** The frames `generateView` builds for a bar. */
  function StackFrames(horizontal: bool, screenLoc: real -> real, barWidth: real, bar: StackedBarModel): seq<StackFrame>
  {
    Stack(horizontal, screenLoc, barWidth, bar, bar.items).frames
  }

  /** Where item `k` starts in model space: the bar's start plus the
      quantities before it. */
  function ItemStart(bar: StackedBarModel, items: seq<StackedBarItem>, k: nat): real
    requires k <= |items|
  {
    bar.axisValue1.scalar + Sum(Quantities(items[..k]))
  }

  /** The fold builds one frame per item; its running quantity ends at the
      bar's start plus all quantities, and the lengths telescope to the
      screen distance from the bar's start to that end. */
  lemma {:induction false} StackTotals(horizontal: bool, screenLoc: real -> real, barWidth: real,
                                       bar: StackedBarModel, items: seq<StackedBarItem>)
    ensures |Stack(horizontal, screenLoc, barWidth, bar, items).frames| == |items|
    ensures Stack(horizontal, screenLoc, barWidth, bar, items).currentTotalQuantity == ItemStart(bar, items, |items|)
    ensures Stack(horizontal, screenLoc, barWidth, bar, items).currentTotalLength
            == screenLoc(ItemStart(bar, items, |items|)) - screenLoc(bar.axisValue1.scalar)
  {
    if items == [] {
      assert items[..0] == [];
    } else {
      var n := |items| - 1;
      var pre := items[..n];
      StackTotals(horizontal, screenLoc, barWidth, bar, pre);
      assert pre[..n] == pre && items[..n + 1] == items;
      ItemEndIsNextStart(bar, items, n);
      assert ItemStart(bar, pre, n) == ItemStart(bar, items, n);
      var st := Stack(horizontal, screenLoc, barWidth, bar, pre);
      assert FrameBuilder(horizontal, screenLoc, barWidth, bar, items[n], st.currentTotalQuantity).length
             == screenLoc(ItemStart(bar, items, n + 1)) - screenLoc(ItemStart(bar, items, n));
    }
  }

  /** Frame `k` of the fold is the frame of item `k` at the item's start, so
      frames come in item order. */
  lemma {:induction false} StackFrameAt(horizontal: bool, screenLoc: real -> real, barWidth: real,
                                        bar: StackedBarModel, items: seq<StackedBarItem>, k: nat)
    requires k < |items|
    ensures |Stack(horizontal, screenLoc, barWidth, bar, items).frames| == |items|
    ensures Stack(horizontal, screenLoc, barWidth, bar, items).frames[k]
            == FrameBuilder(horizontal, screenLoc, barWidth, bar, items[k], ItemStart(bar, items, k)).frame
  {
    StackTotals(horizontal, screenLoc, barWidth, bar, items);
    var n := |items| - 1;
    var pre := items[..n];
    StackTotals(horizontal, screenLoc, barWidth, bar, pre);
    assert pre[..n] == pre;
    assert items[..k] == pre[..k] || k == n;
    if k < n {
      StackFrameAt(horizontal, screenLoc, barWidth, bar, pre, k);
      assert pre[k] == items[k];
    }
  }

  /** For a bar built by `NewStackedBarModel`, the running quantity of the
      fold ends exactly at `axisValue2`, and the total length is the screen
      distance between the bar's two ends. */
  lemma StackEndsAtAxisValue2(horizontal: bool, screenLoc: real -> real, barWidth: real,
                              constant: AxisValue, start: AxisValue, items: seq<StackedBarItem>)
    ensures Stack(horizontal, screenLoc, barWidth, NewStackedBarModel(constant, start, items), items).currentTotalQuantity
            == NewStackedBarModel(constant, start, items).axisValue2.scalar
    ensures Stack(horizontal, screenLoc, barWidth, NewStackedBarModel(constant, start, items), items).currentTotalLength
            == screenLoc(NewStackedBarModel(constant, start, items).axisValue2.scalar) - screenLoc(start.scalar)
    ensures |StackFrames(horizontal, screenLoc, barWidth, NewStackedBarModel(constant, start, items))| == |items|
  {
    var bar := NewStackedBarModel(constant, start, items);
    StackTotals(horizontal, screenLoc, barWidth, bar, items);
    BarExtentIsTotalQuantity(constant, start, items);
    assert items[..|items|] == items;
  }

  /** Each frame has its item's colour, and consecutive frames whose lengths
      have the same sign (both positive, or both not positive) abut: frame
      `k` ends along the axis where frame `k + 1` starts, since item `k` ends
      where item `k + 1` begins and both frames are placed from the same end
      of the bar. */
  lemma FramesAbut(horizontal: bool, screenLoc: real -> real, barWidth: real, bar: StackedBarModel, k: nat)
    requires k + 1 < |bar.items|
    requires (screenLoc(ItemStart(bar, bar.items, k + 1)) - screenLoc(ItemStart(bar, bar.items, k)) > 0.0)
             == (screenLoc(ItemStart(bar, bar.items, k + 2)) - screenLoc(ItemStart(bar, bar.items, k + 1)) > 0.0)
    ensures |StackFrames(horizontal, screenLoc, barWidth, bar)| == |bar.items|
    ensures StackFrames(horizontal, screenLoc, barWidth, bar)[k].color == bar.items[k].bgColor
    ensures AlongStart(horizontal, StackFrames(horizontal, screenLoc, barWidth, bar)[k].rect)
            + AlongLength(horizontal, StackFrames(horizontal, screenLoc, barWidth, bar)[k].rect)
            == AlongStart(horizontal, StackFrames(horizontal, screenLoc, barWidth, bar)[k + 1].rect)
  {
    var items := bar.items;
    StackFrameAt(horizontal, screenLoc, barWidth, bar, items, k);
    StackFrameAt(horizontal, screenLoc, barWidth, bar, items, k + 1);
    ItemEndIsNextStart(bar, items, k);
    ItemEndIsNextStart(bar, items, k + 1);
    FrameBuilderGeometry(horizontal, screenLoc, barWidth, bar, items[k], ItemStart(bar, items, k));
    FrameBuilderGeometry(horizontal, screenLoc, barWidth, bar, items[k + 1], ItemStart(bar, items, k + 1));
  }

  /** Item `k` ends where item `k + 1` begins. */
  lemma ItemEndIsNextStart(bar: StackedBarModel, items: seq<StackedBarItem>, k: nat)
    requires k < |items|
    ensures ItemStart(bar, items, k) + items[k].quantity == ItemStart(bar, items, k + 1)
  {
    assert Quantities(items[..k + 1]) == Quantities(items[..k]) + [items[k].quantity];
    SumSnoc(Quantities(items[..k]), items[k].quantity);
  }
}
