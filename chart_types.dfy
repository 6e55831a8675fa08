/** Value types shared by the axis and layer models: optional values, screen
    points and sizes, axis values, chart points, and two folds over sequences
    (an order-preserving filter and a sum) that several of the models use. */
module ChartTypes {

  datatype Option<+T> = None | Some(value: T)

  /** A screen coordinate pair (CGPoint), with reals for CGFloat. */
  datatype Point = Point(x: real, y: real)

  /** A width/height pair (CGSize). */
  datatype Size = Size(width: real, height: real)

  /** An axis-aligned rectangle (CGRect): origin and extent. */
  datatype Rect = Rect(x: real, y: real, width: real, height: real)

  /** A fill colour; only ever copied, never computed with. */
  datatype Color = Rgba(red: real, green: real, blue: real, alpha: real)

  /** ChartAxisValue: the scalar drives all geometry, the text is cosmetic. */
  datatype AxisValue = AxisValue(scalar: real, text: string)

  /** ChartPoint: one datum, an x and a y axis value. */
  datatype ChartPoint = ChartPoint(x: AxisValue, y: AxisValue)

  /** The elements of `s` that satisfy `p`, in their original order. */
  function Filter<T>(s: seq<T>, p: T -> bool): (r: seq<T>)
    ensures |r| <= |s|
  {
    if s == [] then []
    else
      var init := Filter(s[..|s| - 1], p);
      if p(s[|s| - 1]) then init + [s[|s| - 1]] else init
  }

  /** The elements of `s` at the positions listed in `idx`. */
  function Pick<T>(s: seq<T>, idx: seq<nat>): (r: seq<T>)
    requires forall k :: 0 <= k < |idx| ==> idx[k] < |s|
    ensures |r| == |idx|
    ensures forall k :: 0 <= k < |idx| ==> r[k] == s[idx[k]]
  {
    seq(|idx|, k requires 0 <= k < |idx| => s[idx[k]])
  }

  /** `idx` lists positions of `s` in strictly increasing order and `r` holds
      the elements of `s` at those positions. */
  ghost predicate PicksAt<T>(r: seq<T>, s: seq<T>, idx: seq<nat>)
  {
    && |idx| == |r|
    && (forall k :: 0 <= k < |idx| ==> idx[k] < |s| && r[k] == s[idx[k]])
    && (forall k, l :: 0 <= k < l < |idx| ==> idx[k] < idx[l])
  }

  /** The filter keeps exactly the positions whose element satisfies `p`, in
      order: the returned positions are increasing, each is a position where
      `p` holds, and every position where `p` holds is among them. */
  lemma {:induction false} FilterExact<T>(s: seq<T>, p: T -> bool) returns (idx: seq<nat>)
    ensures PicksAt(Filter(s, p), s, idx)
    ensures forall i :: 0 <= i < |s| ==> (p(s[i]) <==> i in idx)
  {
    if s == [] {
      idx := [];
    } else {
      var n := |s| - 1;
      var pre := s[..n];
      var init := FilterExact(pre, p);
      assert forall k :: 0 <= k < |init| ==> init[k] < n;
      if p(s[n]) {
        idx := init + [n];
        assert Filter(s, p) == Filter(pre, p) + [s[n]];
      } else {
        idx := init;
        assert Filter(s, p) == Filter(pre, p);
      }
      forall k | 0 <= k < |idx|
        ensures idx[k] < |s| && Filter(s, p)[k] == s[idx[k]]
      {
        if k < |init| {
          assert pre[init[k]] == s[init[k]];
        }
      }
      forall i | 0 <= i < |s|
        ensures p(s[i]) <==> i in idx
      {
        if i < n {
          assert pre[i] == s[i];
        }
      }
    }
  }

  /** Left fold of addition, as `reduce(start) { $0 + $1 }`. */
  function SumFrom(start: real, xs: seq<real>): real
    decreases xs
  {
    if xs == [] then start else SumFrom(start + xs[0], xs[1..])
  }

  /** Plain sum, accumulated from the right. */
  function Sum(xs: seq<real>): real
  {
    if xs == [] then 0.0 else xs[0] + Sum(xs[1..])
  }

  /** Folding from `start` adds `start` to the plain sum. */
  lemma {:induction false} SumFromIsSum(start: real, xs: seq<real>)
    ensures SumFrom(start, xs) == start + Sum(xs)
    decreases xs
  {
    if xs != [] {
      SumFromIsSum(start + xs[0], xs[1..]);
    }
  }

  /** The sum of a sequence extended by one element. */
  lemma {:induction false} SumSnoc(xs: seq<real>, x: real)
    ensures Sum(xs + [x]) == Sum(xs) + x
  {
    if xs == [] {
      assert [x][1..] == [];
    } else {
      assert (xs + [x])[1..] == xs[1..] + [x];
      SumSnoc(xs[1..], x);
    }
  }
}
