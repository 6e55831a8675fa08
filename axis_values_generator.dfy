/** The fixed, non-overlapping axis values generator.

    Given all candidate axis values and the largest label size among them,
    it keeps only the values whose labels can be drawn without overlapping:
    candidates are given equal screen space each (`screenLength / count`),
    a cursor advances by that amount per candidate, and a candidate is kept
    only when the cursor has reached the end of the previously kept label's
    footprint (label extent plus spacing). The last candidate is then put in
    place of the last kept one, so that the end of the axis is always
    labelled. */
module AxisValuesGenerator {
  import opened ChartTypes

  /** Equal screen space per candidate. With no candidates the Swift division
      yields a non-finite value that is never read; any value will do. */
  function SpacePerTick(screenLength: real, n: nat): real
  {
    if n == 0 then 0.0 else screenLength / n as real
  }

  /** The cursor after `m` candidates: `spacePerTick` added `m` times. */
  function Cursor(m: nat, spacePerTick: real): real
  {
    if m == 0 then 0.0 else Cursor(m - 1, spacePerTick) + spacePerTick
  }

  /** The repeated addition is the product `m * spacePerTick`. */
  lemma {:induction false} CursorIsProduct(m: nat, spt: real)
    ensures Cursor(m, spt) == m as real * spt
  {
    if m > 0 {
      CursorIsProduct(m - 1, spt);
      assert m as real * spt == (m - 1) as real * spt + spt;
    }
  }

  /** The cursor distance between two positions is their distance in ticks
      times the space per tick. */
  lemma CursorGap(a: nat, b: nat, spt: real)
    ensures Cursor(a + 1, spt) - Cursor(b + 1, spt) == (a as real - b as real) * spt
  {
    CursorIsProduct(a + 1, spt);
    CursorIsProduct(b + 1, spt);
    assert (a + 1) as real * spt - (b + 1) as real * spt == (a as real - b as real) * spt;
  }

  /** Positions kept by the greedy pass over positions `k..n-1`, when the
      previously kept label ends at `labelEnd`. */
  function KeptFrom(n: nat, spacePerTick: real, footprint: real, k: nat, labelEnd: real): seq<nat>
    requires k <= n
    decreases n - k
  {
    if k == n then []
    else
      var coord := Cursor(k + 1, spacePerTick);
      if labelEnd <= coord then [k] + KeptFrom(n, spacePerTick, footprint, k + 1, coord + footprint)
      else KeptFrom(n, spacePerTick, footprint, k + 1, labelEnd)
  }

  /** Positions kept by the whole greedy pass: cursor and label end start at 0. */
  function Kept(n: nat, spacePerTick: real, footprint: real): seq<nat>
  {
    KeptFrom(n, spacePerTick, footprint, 0, 0.0)
  }

  /** Every position in `r` lies in `lo..hi-1`. */
  ghost predicate InRange(r: seq<nat>, lo: nat, hi: nat)
  {
    forall t :: 0 <= t < |r| ==> lo <= r[t] < hi
  }

  /** The positions in `r` increase strictly. */
  ghost predicate Increasing(r: seq<nat>)
  {
    forall t, u :: 0 <= t < u < |r| ==> r[t] < r[u]
  }

  /** Consecutive positions in `r` have cursors at least `fp` apart. */
  ghost predicate CursorsSpaced(r: seq<nat>, spt: real, fp: real)
  {
    forall t :: 0 <= t < |r| - 1 ==> Cursor(r[t + 1] + 1, spt) - Cursor(r[t] + 1, spt) >= fp
  }

  /** Consecutive positions in `r`, `spt` apart per tick, are at least `fp`
      apart on screen. */
  ghost predicate TicksSpaced(r: seq<nat>, spt: real, fp: real)
  {
    forall t :: 0 <= t < |r| - 1 ==> (r[t + 1] as real - r[t] as real) * spt >= fp
  }

  /** Kept positions lie in `k..n-1` and increase strictly. */
  lemma {:induction false} KeptFromBounds(n: nat, spt: real, fp: real, k: nat, e: real)
    requires k <= n
    ensures InRange(KeptFrom(n, spt, fp, k, e), k, n)
    ensures Increasing(KeptFrom(n, spt, fp, k, e))
    decreases n - k
  {
    if k < n {
      var coord := Cursor(k + 1, spt);
      var r := KeptFrom(n, spt, fp, k, e);
      if e <= coord {
        var rest := KeptFrom(n, spt, fp, k + 1, coord + fp);
        KeptFromBounds(n, spt, fp, k + 1, coord + fp);
        assert r == [k] + rest;
        assert forall t :: 0 < t < |r| ==> r[t] == rest[t - 1];
      } else {
        KeptFromBounds(n, spt, fp, k + 1, e);
        assert r == KeptFrom(n, spt, fp, k + 1, e);
      }
    }
  }

  /** The first kept position is one whose cursor reached `labelEnd`; when
      the cursor at `k` already has, `k` itself is kept. */
  lemma {:induction false} KeptFromFirst(n: nat, spt: real, fp: real, k: nat, e: real)
    requires k <= n
    ensures |KeptFrom(n, spt, fp, k, e)| > 0 ==> e <= Cursor(KeptFrom(n, spt, fp, k, e)[0] + 1, spt)
    ensures k < n && e <= Cursor(k + 1, spt) ==>
      |KeptFrom(n, spt, fp, k, e)| > 0 && KeptFrom(n, spt, fp, k, e)[0] == k
    decreases n - k
  {
    if k < n {
      var coord := Cursor(k + 1, spt);
      if e > coord {
        KeptFromFirst(n, spt, fp, k + 1, e);
        assert KeptFrom(n, spt, fp, k, e) == KeptFrom(n, spt, fp, k + 1, e);
      }
    }
  }

  /** Two consecutively kept positions have cursors at least one footprint
      apart. */
  lemma {:induction false} KeptFromSpacing(n: nat, spt: real, fp: real, k: nat, e: real)
    requires k <= n
    ensures CursorsSpaced(KeptFrom(n, spt, fp, k, e), spt, fp)
    decreases n - k
  {
    if k < n {
      var coord := Cursor(k + 1, spt);
      var r := KeptFrom(n, spt, fp, k, e);
      if e <= coord {
        var rest := KeptFrom(n, spt, fp, k + 1, coord + fp);
        KeptFromSpacing(n, spt, fp, k + 1, coord + fp);
        KeptFromFirst(n, spt, fp, k + 1, coord + fp);
        assert r == [k] + rest;
        assert forall t :: 0 < t < |r| ==> r[t] == rest[t - 1];
      } else {
        KeptFromSpacing(n, spt, fp, k + 1, e);
        assert r == KeptFrom(n, spt, fp, k + 1, e);
      }
    }
  }

  /** A candidate skipped before the first kept position is one whose cursor
      had not reached `labelEnd`. */
  lemma {:induction false} KeptFromSkippedBeforeFirst(n: nat, spt: real, fp: real, k: nat, e: real, j: nat)
    requires k <= j < n
    requires |KeptFrom(n, spt, fp, k, e)| == 0 || j < KeptFrom(n, spt, fp, k, e)[0]
    ensures Cursor(j + 1, spt) < e
    decreases n - k
  {
    var coord := Cursor(k + 1, spt);
    if e <= coord {
      assert false;
    } else if j > k {
      assert KeptFrom(n, spt, fp, k, e) == KeptFrom(n, spt, fp, k + 1, e);
      KeptFromSkippedBeforeFirst(n, spt, fp, k + 1, e, j);
    }
  }

  /** A candidate skipped after kept position `r[t]`, and before the next kept
      one, has a cursor less than one footprint past that of `r[t]`. */
  lemma {:induction false} KeptFromSkipped(n: nat, spt: real, fp: real, k: nat, e: real, t: nat, j: nat)
    requires k <= n
    requires t < |KeptFrom(n, spt, fp, k, e)|
    requires KeptFrom(n, spt, fp, k, e)[t] < j < n
    requires t + 1 == |KeptFrom(n, spt, fp, k, e)| || j < KeptFrom(n, spt, fp, k, e)[t + 1]
    ensures Cursor(j + 1, spt) - Cursor(KeptFrom(n, spt, fp, k, e)[t] + 1, spt) < fp
    decreases n - k
  {
    var r := KeptFrom(n, spt, fp, k, e);
    var coord := Cursor(k + 1, spt);
    if e <= coord {
      var rest := KeptFrom(n, spt, fp, k + 1, coord + fp);
      assert r == [k] + rest;
      if t == 0 {
        KeptFromSkippedBeforeFirst(n, spt, fp, k + 1, coord + fp, j);
      } else {
        assert r[t] == rest[t - 1];
        assert t == |r| - 1 || r[t + 1] == rest[t];
        KeptFromSkipped(n, spt, fp, k + 1, coord + fp, t - 1, j);
      }
    } else {
      assert r == KeptFrom(n, spt, fp, k + 1, e);
      KeptFromSkipped(n, spt, fp, k + 1, e, t, j);
    }
  }

  /** What the greedy pass keeps: positions of candidates, increasing, and
      consecutive kept positions `i < j` satisfy
      `(j - i) * spacePerTick >= footprint`. With a non-negative space per
      tick the first candidate is always kept. */
  lemma KeptIsGreedy(n: nat, spt: real, fp: real)
    ensures InRange(Kept(n, spt, fp), 0, n)
    ensures Increasing(Kept(n, spt, fp))
    ensures TicksSpaced(Kept(n, spt, fp), spt, fp)
    ensures n > 0 && spt >= 0.0 ==> |Kept(n, spt, fp)| > 0 && Kept(n, spt, fp)[0] == 0
  {
    KeptFromBounds(n, spt, fp, 0, 0.0);
    KeptFromFirst(n, spt, fp, 0, 0.0);
    KeptFromSpacing(n, spt, fp, 0, 0.0);
    CursorsToTicks(Kept(n, spt, fp), spt, fp);
    assert Cursor(1, spt) == spt;
  }

  /** Cursor spacing is tick spacing. */
  lemma CursorsToTicks(r: seq<nat>, spt: real, fp: real)
    requires CursorsSpaced(r, spt, fp)
    ensures TicksSpaced(r, spt, fp)
  {
    forall t | 0 <= t < |r| - 1
      ensures (r[t + 1] as real - r[t] as real) * spt >= fp
    {
      CursorGap(r[t + 1], r[t], spt);
    }
  }

  /** The other direction of `KeptIsGreedy`: a candidate `j` between kept
      positions `r[t]` and `r[t + 1]` (or after the last) was skipped because
      its label would have overlapped the one at `r[t]`. */
  lemma KeptSkipsOnlyOverlapping(n: nat, spt: real, fp: real, t: nat, j: nat)
    requires t < |Kept(n, spt, fp)|
    requires Kept(n, spt, fp)[t] < j < n
    requires t + 1 == |Kept(n, spt, fp)| || j < Kept(n, spt, fp)[t + 1]
    ensures (j as real - Kept(n, spt, fp)[t] as real) * spt < fp
  {
    KeptFromSkipped(n, spt, fp, 0, 0.0, t, j);
    CursorGap(j, Kept(n, spt, fp)[t], spt);
  }

  /** With negative space per tick every cursor lies left of the start. */
  lemma {:induction false} CursorNegative(m: nat, spt: real)
    requires m >= 1 && spt < 0.0
    ensures Cursor(m, spt) < 0.0
  {
    if m > 1 {
      CursorNegative(m - 1, spt);
    }
  }

  /** With negative space per tick no cursor reaches a non-negative label
      end, so the greedy pass keeps nothing. */
  lemma {:induction false} KeptFromNothingWhenNegative(n: nat, spt: real, fp: real, k: nat, e: real)
    requires k <= n && spt < 0.0 && e >= 0.0
    ensures KeptFrom(n, spt, fp, k, e) == []
    decreases n - k
  {
    if k < n {
      CursorNegative(k + 1, spt);
      KeptFromNothingWhenNegative(n, spt, fp, k + 1, e);
    }
  }

  /** The kept positions with the last one replaced by the last candidate. */
  function ForcedIndices(n: nat, spacePerTick: real, footprint: real): seq<nat>
  {
    var kept := Kept(n, spacePerTick, footprint);
    if kept == [] then [] else kept[..|kept| - 1] + [n - 1]
  }

  /** Forcing the last candidate keeps the positions increasing and in range;
      it only moves the last kept position further right. */
  lemma ForcedIndicesShape(n: nat, spt: real, fp: real)
    ensures |ForcedIndices(n, spt, fp)| == |Kept(n, spt, fp)|
    ensures InRange(ForcedIndices(n, spt, fp), 0, n)
    ensures Increasing(ForcedIndices(n, spt, fp))
    ensures forall t :: 0 <= t < |Kept(n, spt, fp)| - 1 ==> ForcedIndices(n, spt, fp)[t] == Kept(n, spt, fp)[t]
    ensures |Kept(n, spt, fp)| > 0 ==>
      ForcedIndices(n, spt, fp)[|Kept(n, spt, fp)| - 1] == n - 1 &&
      Kept(n, spt, fp)[|Kept(n, spt, fp)| - 1] <= n - 1
  {
    KeptFromBounds(n, spt, fp, 0, 0.0);
    var kept := Kept(n, spt, fp);
    var f := ForcedIndices(n, spt, fp);
    if kept != [] {
      assert forall t :: 0 <= t < |kept| - 1 ==> f[t] == kept[t];
    }
  }

  /** The selection the generator makes from `candidates`. */
  function Selection(candidates: seq<AxisValue>, screenLength: real, footprint: real): seq<AxisValue>
  {
    var n := |candidates|;
    ForcedIndicesShape(n, SpacePerTick(screenLength, n), footprint);
    Pick(candidates, ForcedIndices(n, SpacePerTick(screenLength, n), footprint))
  }

  /** Strictly increasing positions below `n` number at most `n`. */
  lemma {:induction false} IncreasingBelowIsShort(idx: seq<nat>, n: nat)
    requires InRange(idx, 0, n)
    requires Increasing(idx)
    ensures |idx| <= n
  {
    if |idx| > 0 {
      var last := |idx| - 1;
      IncreasingBelowIsShort(idx[..last], idx[last]);
    }
  }

  /** The selection is an order-preserving subsequence of the candidates, at
      the positions `ForcedIndices` lists, and no longer than the candidates. */
  lemma SelectionIsSubsequence(candidates: seq<AxisValue>, screenLength: real, footprint: real)
    ensures PicksAt(Selection(candidates, screenLength, footprint), candidates,
                    ForcedIndices(|candidates|, SpacePerTick(screenLength, |candidates|), footprint))
    ensures |Selection(candidates, screenLength, footprint)| <= |candidates|
  {
    var n := |candidates|;
    ForcedIndicesShape(n, SpacePerTick(screenLength, n), footprint);
    IncreasingBelowIsShort(ForcedIndices(n, SpacePerTick(screenLength, n), footprint), n);
  }

  /** No candidates give no selection; a non-empty selection ends with the
      last candidate; a non-negative screen length keeps the first candidate
      in the greedy pass, so the selection is non-empty; a negative screen
      length keeps nothing, so the selection is empty. */
  lemma SelectionEnds(candidates: seq<AxisValue>, screenLength: real, footprint: real)
    ensures |candidates| == 0 ==> Selection(candidates, screenLength, footprint) == []
    ensures |Selection(candidates, screenLength, footprint)| > 0 ==>
      Selection(candidates, screenLength, footprint)[|Selection(candidates, screenLength, footprint)| - 1]
      == candidates[|candidates| - 1]
    ensures |candidates| > 0 && screenLength >= 0.0 ==>
      |Kept(|candidates|, SpacePerTick(screenLength, |candidates|), footprint)| > 0 &&
      Kept(|candidates|, SpacePerTick(screenLength, |candidates|), footprint)[0] == 0 &&
      |Selection(candidates, screenLength, footprint)| > 0
    ensures |candidates| > 0 && screenLength < 0.0 ==> Selection(candidates, screenLength, footprint) == []
  {
    var n := |candidates|;
    var spt := SpacePerTick(screenLength, n);
    ForcedIndicesShape(n, spt, footprint);
    if n > 0 && screenLength >= 0.0 {
      assert spt >= 0.0;
      KeptIsGreedy(n, spt, footprint);
    } else if n > 0 {
      assert spt < 0.0;
      KeptFromNothingWhenNegative(n, spt, footprint, 0, 0.0);
    }
  }

  /** Consecutive selected labels are at least one footprint (label extent
      plus spacing) apart on screen, also across the replaced last label. A
      negative screen length selects nothing. */
  lemma SelectionSpacing(candidates: seq<AxisValue>, screenLength: real, footprint: real)
    ensures TicksSpaced(ForcedIndices(|candidates|, SpacePerTick(screenLength, |candidates|), footprint),
                        SpacePerTick(screenLength, |candidates|), footprint)
  {
    var n := |candidates|;
    var spt := SpacePerTick(screenLength, n);
    var kept := Kept(n, spt, footprint);
    KeptIsGreedy(n, spt, footprint);
    if spt < 0.0 {
      KeptFromNothingWhenNegative(n, spt, footprint, 0, 0.0);
    } else if kept != [] {
      ForcingKeepsSpacing(kept, n, spt, footprint);
    }
  }

  /** Moving the last of some spaced positions further right keeps them
      spaced when the space per tick is non-negative. */
  lemma ForcingKeepsSpacing(kept: seq<nat>, n: nat, spt: real, fp: real)
    requires n > 0 && |kept| > 0 && InRange(kept, 0, n) && TicksSpaced(kept, spt, fp)
    requires spt >= 0.0
    ensures TicksSpaced(kept[..|kept| - 1] + [n - 1], spt, fp)
  {
    var last := |kept| - 1;
    var f := kept[..last] + [n - 1];
    forall t | 0 <= t < |f| - 1
      ensures (f[t + 1] as real - f[t] as real) * spt >= fp
    {
      assert f[t] == kept[t];
      if t + 1 < last {
        assert f[t + 1] == kept[t + 1];
      } else {
        assert f[t + 1] == n - 1;
        ScaleUp(kept[t + 1] as real - kept[t] as real, (n - 1) as real - kept[t] as real, spt);
      }
    }
  }

  /** Multiplying by a non-negative factor preserves `<=`. */
  lemma ScaleUp(a: real, b: real, c: real)
    requires a <= b && c >= 0.0
    ensures a * c <= b * c
  {
  }

  /** One step of the greedy pass at position `k`. */
  lemma KeptFromStep(n: nat, spt: real, fp: real, k: nat, e: real)
    requires k < n
    ensures e <= Cursor(k + 1, spt) ==>
      KeptFrom(n, spt, fp, k, e) == [k] + KeptFrom(n, spt, fp, k + 1, Cursor(k + 1, spt) + fp)
    ensures e > Cursor(k + 1, spt) ==>
      KeptFrom(n, spt, fp, k, e) == KeptFrom(n, spt, fp, k + 1, e)
  {
  }

  /** Replacing the last picked element by the last candidate is picking at
      the forced positions; when it is already the last candidate, nothing
      changes. */
  lemma ReplaceLastIsForced(candidates: seq<AxisValue>, kept: seq<nat>, forced: seq<nat>)
    requires |candidates| > 0 && InRange(kept, 0, |candidates|) && |kept| > 0
    requires forced == kept[..|kept| - 1] + [|candidates| - 1]
    ensures Pick(candidates, kept)[|kept| - 1 := candidates[|candidates| - 1]] == Pick(candidates, forced)
    ensures Pick(candidates, kept)[|kept| - 1] == candidates[|candidates| - 1] ==>
      Pick(candidates, kept) == Pick(candidates, forced)
  {
    var replaced := Pick(candidates, kept)[|kept| - 1 := candidates[|candidates| - 1]];
    assert forall t :: 0 <= t < |kept| - 1 ==> forced[t] == kept[t];
    assert replaced == Pick(candidates, forced);
  }

  /** The scalars of some axis values, in order. */
  function Scalars(vs: seq<AxisValue>): (r: seq<real>)
    ensures |r| == |vs| && forall i :: 0 <= i < |vs| ==> r[i] == vs[i].scalar
  {
    seq(|vs|, i requires 0 <= i < |vs| => vs[i].scalar)
  }

  /** ChartAxisValuesGeneratorFixedNonOverlapping: the candidates and their
      label measurements are fixed at construction; `values`, the scalars to
      label, is recomputed on every `Generate`. */
  class FixedNonOverlappingGenerator {
    const axisValues: seq<AxisValue>
    const maxLabelSize: Size
    const totalLabelSize: Size
    const spacing: real
    const isX: bool
    var values: seq<real>

    /** Label measurements come from the caller; at first every candidate's
        scalar is a value. */
    constructor (axisValues: seq<AxisValue>, spacing: real, isX: bool, totalLabelSize: Size, maxLabelSize: Size)
      ensures this.axisValues == axisValues && this.spacing == spacing && this.isX == isX
      ensures this.totalLabelSize == totalLabelSize && this.maxLabelSize == maxLabelSize
      ensures values == Scalars(axisValues)
    {
      this.axisValues := axisValues;
      this.spacing := spacing;
      this.isX := isX;
      this.totalLabelSize := totalLabelSize;
      this.maxLabelSize := maxLabelSize;
      values := Scalars(axisValues);
    }

    /** Screen space one label takes along the axis, spacing included. */
    function Footprint(): real
    {
      (if isX then maxLabelSize.width else maxLabelSize.height) + spacing
    }

    /** The greedy pass followed by the forced last label. */
    method SelectNonOverlappingAxisLabels(candidates: seq<AxisValue>, screenLength: real)
      returns (filtered: seq<AxisValue>)
      ensures filtered == Selection(candidates, screenLength, Footprint())
    {
      var n := |candidates|;
      var spacePerTick := SpacePerTick(screenLength, n);
      ghost var fp := Footprint();
      ghost var kept: seq<nat> := [];
      filtered := [];
      var coord, currentLabelEnd := 0.0, 0.0;
      var i := 0;
      while i < n
        invariant 0 <= i <= n
        invariant coord == Cursor(i, spacePerTick)
        invariant kept + KeptFrom(n, spacePerTick, fp, i, currentLabelEnd) == Kept(n, spacePerTick, fp)
        invariant InRange(kept, 0, i)
        invariant filtered == Pick(candidates, kept)
      {
        coord := coord + spacePerTick;
        KeptFromStep(n, spacePerTick, fp, i, currentLabelEnd);
        if currentLabelEnd <= coord {
          ghost var rest := KeptFrom(n, spacePerTick, fp, i + 1, coord + fp);
          assert kept + [i] + rest == kept + ([i] + rest);
          filtered := filtered + [candidates[i]];
          kept := kept + [i];
          currentLabelEnd := coord + (if isX then maxLabelSize.width else maxLabelSize.height) + spacing;
        }
        i := i + 1;
      }
      assert kept == Kept(n, spacePerTick, fp);
      if |filtered| > 0 && n > 0 && filtered[|filtered| - 1] != candidates[n - 1] {
        ReplaceLastIsForced(candidates, kept, ForcedIndices(n, spacePerTick, fp));
        filtered := filtered[|filtered| - 1 := candidates[n - 1]];
      } else if |filtered| > 0 {
        ReplaceLastIsForced(candidates, kept, ForcedIndices(n, spacePerTick, fp));
      }
    }

    /** Recomputes `values` from the immutable candidates. */
    method UpdateAxisValues(screenLength: real)
      modifies this`values
      ensures values == Scalars(Selection(axisValues, screenLength, Footprint()))
    {
      var selected := SelectNonOverlappingAxisLabels(axisValues, screenLength);
      values := Scalars(selected);
    }

    /** Updates `values` for the axis's screen length and returns them. The
        result depends only on the constant fields and the screen length, so
        generating twice for the same length gives the same values. */
    method Generate(screenLength: real) returns (r: seq<real>)
      modifies this`values
      ensures values == Scalars(Selection(axisValues, screenLength, Footprint()))
      ensures r == values
    {
      UpdateAxisValues(screenLength);
      r := values;
    }
  }
}
