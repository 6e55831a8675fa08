/** Layout of the labels under an X axis.

    Each axis value may carry several labels, stacked in rows: the r-th label
    of every value goes into row r. A row is as tall as its tallest label, and
    rows are stacked downward from the axis with a fixed spacing between
    them. A value's labels are centred horizontally on the value's tick; the
    axis title labels are centred on the middle of the axis, one per row.

    Text measurement is not modelled: every label carries its measured size
    (`measured`, the unrotated text size) and its rotated bounding size
    (`textSize`) as given values. The generator of labels for a scalar and
    the axis's screen mapping are function parameters. */
module ChartAxisXLayer {
  import opened ChartTypes

  /** ChartAxisLabel: text, its two sizes, and whether it is drawn hidden. */
  datatype AxisLabel = AxisLabel(text: string, measured: Size, textSize: Size, hidden: bool)

  /** ChartLabelDrawer: what is drawn, where, and whether it is hidden. */
  datatype LabelDrawer = LabelDrawer(text: string, screenLoc: Point, hidden: bool)

  /** ChartAxisValueLabelDrawers: the drawers of one axis value's labels. */
  datatype ValueLabelDrawers = ValueLabelDrawers(scalar: real, drawers: seq<LabelDrawer>)

  /** The layer settings used by the layout. */
  datatype AxisSettings = AxisSettings(
    labelsSpacing: real,
    axisStrokeWidth: real,
    labelsToAxisSpacingX: real,
    axisTitleLabelsToLabelsSpacing: real)

  /** Swift's `max` on two values. */
  function Max(a: real, b: real): real
  {
    if a < b then b else a
  }

  /** The labels actually present in a row (`flatMap { $0 }`), in order. */
  function Present(row: seq<Option<AxisLabel>>): seq<AxisLabel>
  {
    if row == [] then []
    else (if row[0].Some? then [row[0].value] else []) + Present(row[1..])
  }

  /** A label is present exactly when it occurs as `Some` in the row. */
  lemma {:induction false} PresentExact(row: seq<Option<AxisLabel>>)
    ensures forall l :: l in Present(row) <==> Some(l) in row
  {
    if row != [] {
      PresentExact(row[1..]);
      assert row == [row[0]] + row[1..];
    }
  }

  /** `reduce(acc) { max($0, $1.textSize.height) }` over some labels. */
  function MaxHeightFrom(acc: real, labels: seq<AxisLabel>): real
    decreases labels
  {
    if labels == [] then acc else MaxHeightFrom(Max(acc, labels[0].textSize.height), labels[1..])
  }

  /** The fold computes a maximum: it bounds the start and every height, and
      is the start or one of the heights. */
  lemma {:induction false} MaxHeightFromIsMax(acc: real, labels: seq<AxisLabel>)
    ensures acc <= MaxHeightFrom(acc, labels)
    ensures forall l :: l in labels ==> l.textSize.height <= MaxHeightFrom(acc, labels)
    ensures MaxHeightFrom(acc, labels) == acc ||
      exists l :: l in labels && l.textSize.height == MaxHeightFrom(acc, labels)
    decreases labels
  {
    if labels != [] {
      var next := Max(acc, labels[0].textSize.height);
      MaxHeightFromIsMax(next, labels[1..]);
      assert labels == [labels[0]] + labels[1..];
      var r := MaxHeightFrom(acc, labels);
      if r != acc && r != next {
        var l :| l in labels[1..] && l.textSize.height == r;
        assert l in labels;
      } else if r == next && next != acc {
        assert labels[0].textSize.height == r;
      }
    }
  }

  /** Height of one row: its tallest present label, or -1 for a row with no
      labels. */
  function RowHeight(row: seq<Option<AxisLabel>>): real
  {
    MaxHeightFrom(-1.0, Present(row))
  }

  /** A row's height is the maximum `textSize.height` over its present labels,
      and -1 when there are none. */
  lemma RowHeightIsMax(row: seq<Option<AxisLabel>>)
    ensures forall l :: Some(l) in row ==> l.textSize.height <= RowHeight(row)
    ensures -1.0 <= RowHeight(row)
    ensures RowHeight(row) == -1.0 ||
      exists l :: Some(l) in row && l.textSize.height == RowHeight(row)
    ensures (forall k :: 0 <= k < |row| ==> row[k].None?) ==> RowHeight(row) == -1.0
  {
    PresentExact(row);
    MaxHeightFromIsMax(-1.0, Present(row));
  }

  /** `rowHeightsForRows`: the height of every row. */
  function RowHeightsForRows(rows: seq<seq<Option<AxisLabel>>>): (r: seq<real>)
    ensures |r| == |rows|
    ensures forall i :: 0 <= i < |rows| ==> r[i] == RowHeight(rows[i])
  {
    seq(|rows|, i requires 0 <= i < |rows| => RowHeight(rows[i]))
  }

  /** `calculateRowY`: offset of row `rowIndex` below the first row, folding
      `y + rowHeights[index] + spacing` over the rows above it. */
  function RowY(rowHeights: seq<real>, rowIndex: nat, spacing: real): real
    requires rowIndex <= |rowHeights|
  {
    if rowIndex == 0 then 0.0
    else RowY(rowHeights, rowIndex - 1, spacing) + rowHeights[rowIndex - 1] + spacing
  }

  /** A row's offset is the sum of the heights above it plus one spacing per
      row above it; in particular row 0 is at offset 0. */
  lemma {:induction false} RowYIsPrefixSum(rowHeights: seq<real>, rowIndex: nat, spacing: real)
    requires rowIndex <= |rowHeights|
    ensures RowY(rowHeights, rowIndex, spacing) == Sum(rowHeights[..rowIndex]) + rowIndex as real * spacing
  {
    if rowIndex > 0 {
      var i := rowIndex - 1;
      RowYIsPrefixSum(rowHeights, i, spacing);
      assert rowHeights[..rowIndex] == rowHeights[..i] + [rowHeights[i]];
      SumSnoc(rowHeights[..i], rowHeights[i]);
      assert rowIndex as real * spacing == i as real * spacing + spacing;
    }
  }

  /** With non-negative heights and spacing, rows do not overlap: row `i`,
      with its height and the spacing below it, ends at or above any later
      row `j`. */
  lemma {:induction false} RowsStackDownward(rowHeights: seq<real>, i: nat, j: nat, spacing: real)
    requires i < j <= |rowHeights|
    requires spacing >= 0.0
    requires forall k :: i <= k < j ==> rowHeights[k] >= 0.0
    ensures RowY(rowHeights, i, spacing) + rowHeights[i] + spacing <= RowY(rowHeights, j, spacing)
  {
    if j > i + 1 {
      RowsStackDownward(rowHeights, i, j - 1, spacing);
    }
  }

  /** The left fold `reduce(acc) { $0 + height + spacing }`. */
  function TotalFrom(acc: real, rowHeights: seq<real>, spacing: real): real
    decreases rowHeights
  {
    if rowHeights == [] then acc else TotalFrom(acc + rowHeights[0] + spacing, rowHeights[1..], spacing)
  }

  /** `labelsTotalHeight`: every row's height plus the labels spacing. */
  function LabelsTotalHeight(rowHeights: seq<real>, labelsSpacing: real): real
  {
    TotalFrom(0.0, rowHeights, labelsSpacing)
  }

  /** The fold adds every height and one spacing per row to its start. */
  lemma {:induction false} TotalFromIsSum(acc: real, rowHeights: seq<real>, spacing: real)
    ensures TotalFrom(acc, rowHeights, spacing) == acc + Sum(rowHeights) + |rowHeights| as real * spacing
    decreases rowHeights
  {
    if rowHeights != [] {
      TotalFromIsSum(acc + rowHeights[0] + spacing, rowHeights[1..], spacing);
      assert |rowHeights| as real * spacing == (|rowHeights| - 1) as real * spacing + spacing;
    }
  }

  /** The labels' total height is the sum of the row heights plus one
      spacing per row, which is where a row after the last one would start. */
  lemma LabelsTotalHeightIsSum(rowHeights: seq<real>, labelsSpacing: real)
    ensures LabelsTotalHeight(rowHeights, labelsSpacing)
            == Sum(rowHeights) + |rowHeights| as real * labelsSpacing
    ensures LabelsTotalHeight(rowHeights, labelsSpacing)
            == RowY(rowHeights, |rowHeights|, labelsSpacing)
  {
    TotalFromIsSum(0.0, rowHeights, labelsSpacing);
    RowYIsPrefixSum(rowHeights, |rowHeights|, labelsSpacing);
    assert rowHeights[..|rowHeights|] == rowHeights;
  }

  /** `height`: the labels, the axis stroke, the gap between axis and labels,
      the gap between labels and title labels, and the title labels. The
      title labels' height is computed by the base layer, not part of this
      model, and is a parameter. */
  function Height(settings: AxisSettings, rowHeights: seq<real>, axisTitleLabelsHeight: real): real
  {
    LabelsTotalHeight(rowHeights, settings.labelsSpacing) + settings.axisStrokeWidth
      + settings.labelsToAxisSpacingX + settings.axisTitleLabelsToLabelsSpacing + axisTitleLabelsHeight
  }

  /** The axis height spelled out: row heights, one labels spacing per row,
      and the four constant parts. */
  lemma HeightIsSum(settings: AxisSettings, rowHeights: seq<real>, axisTitleLabelsHeight: real)
    ensures Height(settings, rowHeights, axisTitleLabelsHeight)
            == Sum(rowHeights) + |rowHeights| as real * settings.labelsSpacing
               + settings.axisStrokeWidth + settings.labelsToAxisSpacingX
               + settings.axisTitleLabelsToLabelsSpacing + axisTitleLabelsHeight
  {
    LabelsTotalHeightIsSum(rowHeights, settings.labelsSpacing);
  }

  /** `width`: the horizontal extent from the axis origin to its end. */
  function Width(origin: Point, end: Point): (r: real)
    ensures origin.x + r == end.x
    ensures r >= 0.0 <==> origin.x <= end.x
  {
    end.x - origin.x
  }

  /** `reduce(-1) { max($0, count) }` over label counts. */
  function MaxCountFrom(acc: int, counts: seq<nat>): int
    decreases counts
  {
    if counts == [] then acc else MaxCountFrom(if acc < counts[0] then counts[0] else acc, counts[1..])
  }

  /** The maximum number of labels of any axis value, -1 with no values. */
  function MaxRowCount(counts: seq<nat>): int
  {
    MaxCountFrom(-1, counts)
  }

  /** The count fold bounds its start and every count, and is the start or
      one of the counts. */
  lemma {:induction false} MaxCountFromIsMax(acc: int, counts: seq<nat>)
    ensures acc <= MaxCountFrom(acc, counts)
    ensures forall i :: 0 <= i < |counts| ==> counts[i] <= MaxCountFrom(acc, counts)
    ensures MaxCountFrom(acc, counts) == acc ||
      exists i :: 0 <= i < |counts| && counts[i] == MaxCountFrom(acc, counts)
    decreases counts
  {
    if counts != [] {
      var next := if acc < counts[0] then counts[0] else acc;
      MaxCountFromIsMax(next, counts[1..]);
      var r := MaxCountFrom(acc, counts);
      assert forall i :: 1 <= i < |counts| ==> counts[i] == counts[1..][i - 1];
      if r != acc && r != next {
        var i :| 0 <= i < |counts[1..]| && counts[1..][i] == r;
        assert counts[i + 1] == r;
      }
    }
  }

  /** The row count is -1 exactly when there are no axis values; otherwise it
      is the largest label count, reached by some value. */
  lemma MaxRowCountIsMax(counts: seq<nat>)
    ensures MaxRowCount(counts) == -1 <==> counts == []
    ensures forall i :: 0 <= i < |counts| ==> counts[i] <= MaxRowCount(counts)
    ensures counts != [] ==> exists i :: 0 <= i < |counts| && counts[i] == MaxRowCount(counts)
  {
    MaxCountFromIsMax(-1, counts);
    if counts != [] {
      assert counts[0] <= MaxRowCount(counts);
    }
  }

  /** Row `row` of the label grid: every value's `row`-th label, or `None`
      for a value with fewer labels. */
  function Row(labelsPerValue: seq<seq<AxisLabel>>, row: nat): (r: seq<Option<AxisLabel>>)
    ensures |r| == |labelsPerValue|
    ensures forall v :: 0 <= v < |labelsPerValue| ==>
      (r[v].Some? <==> row < |labelsPerValue[v]|) &&
      (row < |labelsPerValue[v]| ==> r[v].value == labelsPerValue[v][row])
  {
    seq(|labelsPerValue|, v requires 0 <= v < |labelsPerValue| =>
      if row < |labelsPerValue[v]| then Some(labelsPerValue[v][row]) else None)
  }

  /** The labels of each current axis value, in order. */
  function LabelsPerValue(currentAxisValues: seq<real>, labelsFor: real -> seq<AxisLabel>): (r: seq<seq<AxisLabel>>)
    ensures |r| == |currentAxisValues|
    ensures forall v :: 0 <= v < |r| ==> r[v] == labelsFor(currentAxisValues[v])
  {
    seq(|currentAxisValues|, v requires 0 <= v < |currentAxisValues| => labelsFor(currentAxisValues[v]))
  }

  /** The number of labels of each current axis value. */
  function LabelCounts(labelsPerValue: seq<seq<AxisLabel>>): (r: seq<nat>)
    ensures |r| == |labelsPerValue|
    ensures forall v :: 0 <= v < |r| ==> r[v] == |labelsPerValue[v]|
  {
    seq(|labelsPerValue|, v requires 0 <= v < |labelsPerValue| => |labelsPerValue[v]|)
  }

  /** `calculateRowHeights`: one height per row of the label grid. With no
      current axis values the row range `0..<-1` is invalid and Swift traps,
      so values are required. */
  function CalculateRowHeights(currentAxisValues: seq<real>, labelsFor: real -> seq<AxisLabel>): seq<real>
    requires |currentAxisValues| > 0
  {
    var perValue := LabelsPerValue(currentAxisValues, labelsFor);
    MaxRowCountIsMax(LabelCounts(perValue));
    var rowCount := MaxRowCount(LabelCounts(perValue));
    RowHeightsForRows(seq(rowCount, row requires 0 <= row < rowCount => Row(perValue, row)))
  }

  /** There are as many rows as the most labels any value has; row `r` is as
      tall as the tallest `r`-th label, and that height is reached. */
  lemma CalculateRowHeightsIsMax(currentAxisValues: seq<real>, labelsFor: real -> seq<AxisLabel>)
    requires |currentAxisValues| > 0
    ensures forall v :: 0 <= v < |currentAxisValues| ==>
      |labelsFor(currentAxisValues[v])| <= |CalculateRowHeights(currentAxisValues, labelsFor)|
    ensures exists v :: (0 <= v < |currentAxisValues| &&
      |labelsFor(currentAxisValues[v])| == |CalculateRowHeights(currentAxisValues, labelsFor)|)
    ensures forall v, row :: 0 <= v < |currentAxisValues| && 0 <= row < |labelsFor(currentAxisValues[v])| ==>
      labelsFor(currentAxisValues[v])[row].textSize.height <= CalculateRowHeights(currentAxisValues, labelsFor)[row]
    ensures forall row :: 0 <= row < |CalculateRowHeights(currentAxisValues, labelsFor)| ==>
      -1.0 <= CalculateRowHeights(currentAxisValues, labelsFor)[row] &&
      (CalculateRowHeights(currentAxisValues, labelsFor)[row] == -1.0 ||
       exists v :: (0 <= v < |currentAxisValues| && row < |labelsFor(currentAxisValues[v])| &&
         labelsFor(currentAxisValues[v])[row].textSize.height == CalculateRowHeights(currentAxisValues, labelsFor)[row]))
  {
    var perValue := LabelsPerValue(currentAxisValues, labelsFor);
    var counts := LabelCounts(perValue);
    MaxRowCountIsMax(counts);
    var heights := CalculateRowHeights(currentAxisValues, labelsFor);
    var rowCount := MaxRowCount(counts);
    assert |heights| == rowCount;
    forall v, row | 0 <= v < |currentAxisValues| && 0 <= row < |labelsFor(currentAxisValues[v])|
      ensures labelsFor(currentAxisValues[v])[row].textSize.height <= heights[row]
    {
      var r := Row(perValue, row);
      RowHeightIsMax(r);
      assert r[v] == Some(labelsFor(currentAxisValues[v])[row]);
    }
    forall row | 0 <= row < |heights|
      ensures -1.0 <= heights[row] &&
        (heights[row] == -1.0 ||
         exists v :: (0 <= v < |currentAxisValues| && row < |labelsFor(currentAxisValues[v])| &&
           labelsFor(currentAxisValues[v])[row].textSize.height == heights[row]))
    {
      var r := Row(perValue, row);
      RowHeightIsMax(r);
      if heights[row] != -1.0 {
        var l :| Some(l) in r && l.textSize.height == RowHeight(r);
        var v :| 0 <= v < |r| && r[v] == Some(l);
        assert labelsFor(currentAxisValues[v])[row] == l;
      }
    }
  }

  /** The drawer `d` draws label `l` horizontally centred on `centreX`, with
      its top at `y`, copying the label's text and hidden flag. */
  ghost predicate DrawsCentred(d: LabelDrawer, l: AxisLabel, centreX: real, y: real)
  {
    && d.text == l.text
    && d.hidden == l.hidden
    && d.screenLoc.x + l.measured.width / 2.0 == centreX
    && d.screenLoc.y == y
  }

  /** The drawer of the `index`-th label of a value whose tick is at `x`. */
  function TickLabelDrawer(l: AxisLabel, index: nat, x: real, origin: Point, offset: real,
                           rowHeights: seq<real>, spacing: real): LabelDrawer
    requires index <= |rowHeights|
  {
    var y := origin.y + offset + RowY(rowHeights, index, spacing);
    LabelDrawer(l.text, Point(x - l.measured.width / 2.0, y), l.hidden)
  }

  /** The label drawers of one axis value, one per label, each in the row
      given by its position among the value's labels. */
  function TickLabelDrawers(labels: seq<AxisLabel>, x: real, origin: Point, offset: real,
                            rowHeights: seq<real>, spacing: real): (r: seq<LabelDrawer>)
    requires |labels| <= |rowHeights| + 1
    ensures |r| == |labels|
    ensures forall j :: 0 <= j < |labels| ==>
      DrawsCentred(r[j], labels[j], x, origin.y + offset + RowY(rowHeights, j, spacing))
  {
    seq(|labels|, j requires 0 <= j < |labels| => TickLabelDrawer(labels[j], j, x, origin, offset, rowHeights, spacing))
  }

  /** `generateDirectLabelDrawers`: for every generated axis value, its labels
      centred on the value's tick and stacked in rows below the axis. The row
      heights come from the current axis values; a value with more labels
      than there are rows (plus one) would index past them, which traps in
      Swift, so that is excluded. */
  function DirectLabelDrawers(values: seq<real>, labelsFor: real -> seq<AxisLabel>,
                              screenLocForScalar: real -> real, origin: Point, offset: real,
                              rowHeights: seq<real>, settings: AxisSettings): (r: seq<ValueLabelDrawers>)
    requires forall i :: 0 <= i < |values| ==> |labelsFor(values[i])| <= |rowHeights| + 1
    ensures |r| == |values|
    ensures forall i :: 0 <= i < |values| ==>
      r[i].scalar == values[i] && |r[i].drawers| == |labelsFor(values[i])|
    ensures forall i, j :: 0 <= i < |values| && 0 <= j < |r[i].drawers| ==>
      DrawsCentred(r[i].drawers[j], labelsFor(values[i])[j], screenLocForScalar(values[i]),
                   origin.y + offset + RowY(rowHeights, j, settings.labelsSpacing))
  {
    seq(|values|, i requires 0 <= i < |values| =>
      ValueLabelDrawers(values[i], TickLabelDrawers(labelsFor(values[i]), screenLocForScalar(values[i]),
                                                    origin, offset, rowHeights, settings.labelsSpacing)))
  }

  /** Row heights of the title labels: every title label is a row of its own. */
  function TitleRowHeights(labels: seq<AxisLabel>): (r: seq<real>)
    ensures |r| == |labels|
  {
    RowHeightsForRows(seq(|labels|, i requires 0 <= i < |labels| => [Some(labels[i])]))
  }

  /** A title row is as tall as its one label, or -1 when that label reports
      a height below -1. */
  lemma TitleRowHeightsAreLabelHeights(labels: seq<AxisLabel>)
    ensures forall i :: 0 <= i < |labels| ==>
      TitleRowHeights(labels)[i] == Max(-1.0, labels[i].textSize.height)
  {
    forall i | 0 <= i < |labels|
      ensures TitleRowHeights(labels)[i] == Max(-1.0, labels[i].textSize.height)
    {
      var rows := seq(|labels|, k requires 0 <= k < |labels| => [Some(labels[k])]);
      var row := rows[i];
      assert TitleRowHeights(labels)[i] == RowHeight(row);
      assert row[1..] == [];
      assert Present(row) == [labels[i]];
      assert [labels[i]][1..] == [];
      assert MaxHeightFrom(-1.0, [labels[i]]) == MaxHeightFrom(Max(-1.0, labels[i].textSize.height), []);
    }
  }

  /** `generateAxisTitleLabelsDrawers`: the title labels centred on the
      middle of the axis, one row each, stacked below the axis. */
  function TitleLabelDrawers(labels: seq<AxisLabel>, origin: Point, end: Point, offset: real,
                             settings: AxisSettings): (r: seq<LabelDrawer>)
    ensures |r| == |labels|
    ensures forall i :: 0 <= i < |labels| ==>
      DrawsCentred(r[i], labels[i], (origin.x + end.x) / 2.0,
                   origin.y + offset + RowY(TitleRowHeights(labels), i, settings.labelsSpacing))
  {
    TickLabelDrawers(labels, (end.x - origin.x) / 2.0 + origin.x, origin, offset,
                     TitleRowHeights(labels), settings.labelsSpacing)
  }
}
