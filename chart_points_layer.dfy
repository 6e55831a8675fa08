/** A layer of chart points.

    The layer keeps one model per chart point: the point, its position in
    the layer's list, and its current screen location. Screen locations are
    recomputed when the axes change, taps are answered with the models near
    the tap, points can be looked up by screen location, and the smallest
    screen gap between consecutive points is available per axis.

    The axes enter as their screen maps (`screenLocForScalar` of the x and
    the y axis). The base layer's `modelLocToScreenLoc(x, y)` is a separate
    map: the layer uses it to build, query and tap models, and uses the axes
    directly to update locations in place. Distance between screen points,
    the tolerant comparison `=~` and the container-to-global conversion are
    parameters. */
module ChartPointsLayer {
  import opened ChartTypes

  /** ChartPointLayerModel: a chart point, its index and its screen location. */
  datatype PointLayerModel = PointLayerModel(chartPoint: ChartPoint, index: int, screenLoc: Point)

  /** TappedChartPointLayerModel: a model near a tap and its distance to it. */
  datatype TappedModel = TappedModel(model: PointLayerModel, distance: real)

  /** ChartPointsTapHandler: only the radius matters here; the handler
      closure is what receives the tapped models. */
  datatype TapHandler = TapHandler(radius: real)

  /** The tap handler's initialiser, whose radius defaults to 30. */
  function NewTapHandler(radius: Option<real>): (h: TapHandler)
    ensures radius.None? ==> h.radius == 30.0
    ensures radius.Some? ==> h.radius == radius.value
  {
    TapHandler(if radius.Some? then radius.value else 30.0)
  }

  /** `copy`: each field is replaced when a value is given and kept otherwise. */
  function Copy(m: PointLayerModel, chartPoint: Option<ChartPoint>, index: Option<int>,
                screenLoc: Option<Point>): (r: PointLayerModel)
    ensures r.chartPoint == (if chartPoint.Some? then chartPoint.value else m.chartPoint)
    ensures r.index == (if index.Some? then index.value else m.index)
    ensures r.screenLoc == (if screenLoc.Some? then screenLoc.value else m.screenLoc)
  {
    PointLayerModel(
      match chartPoint case Some(p) => p case None => m.chartPoint,
      match index case Some(i) => i case None => m.index,
      match screenLoc case Some(l) => l case None => m.screenLoc)
  }

  /** Copying without overrides gives the same model, and copying twice
      equals one copy with the later overrides taking precedence. */
  lemma CopyLaws(m: PointLayerModel, p: Option<ChartPoint>, i: Option<int>, l: Option<Point>, l2: Point)
    ensures Copy(m, None, None, None) == m
    ensures Copy(Copy(m, p, i, l), None, None, Some(l2)) == Copy(m, p, i, Some(l2))
  {
  }

  /** `chartPointScreenLoc`: the screen point of a chart point, through the
      base layer's `modelLocToScreenLoc(x, y)` (here `toScreen`). */
  function ChartPointScreenLoc(toScreen: (real, real) -> Point, p: ChartPoint): Point
  {
    toScreen(p.x.scalar, p.y.scalar)
  }

  /** The screen point of a chart point read off the two axes directly, as
      `updateChartPointsScreenLocations` does. */
  function AxesScreenLoc(xAxis: real -> real, yAxis: real -> real, p: ChartPoint): Point
  {
    Point(xAxis(p.x.scalar), yAxis(p.y.scalar))
  }

  /** The base layer's model-to-screen map is the pair of the axes' maps. */
  ghost predicate CoordsAgree(toScreen: (real, real) -> Point, xAxis: real -> real, yAxis: real -> real)
  {
    forall x: real, y: real :: toScreen(x, y) == Point(xAxis(x), yAxis(y))
  }

  /** The models built for some chart points: model `i` holds point `i`,
      index `i` and the point's screen location. */
  function ModelsFor(chartPoints: seq<ChartPoint>, toScreen: (real, real) -> Point): (r: seq<PointLayerModel>)
    ensures |r| == |chartPoints|
    ensures forall i :: 0 <= i < |r| ==>
      r[i].chartPoint == chartPoints[i] && r[i].index == i &&
      r[i].screenLoc == ChartPointScreenLoc(toScreen, chartPoints[i])
  {
    seq(|chartPoints|, i requires 0 <= i < |chartPoints| =>
      PointLayerModel(chartPoints[i], i, ChartPointScreenLoc(toScreen, chartPoints[i])))
  }

  /** The chart points of some models, in order. */
  function PointsOf(models: seq<PointLayerModel>): (r: seq<ChartPoint>)
    ensures |r| == |models|
    ensures forall i :: 0 <= i < |r| ==> r[i] == models[i].chartPoint
  {
    seq(|models|, i requires 0 <= i < |models| => models[i].chartPoint)
  }

  /** Models are indexed by their position and located where the base
      layer's model-to-screen map puts their chart point. */
  ghost predicate InSync(models: seq<PointLayerModel>, toScreen: (real, real) -> Point)
  {
    forall i :: 0 <= i < |models| ==>
      models[i].index == i && models[i].screenLoc == ChartPointScreenLoc(toScreen, models[i].chartPoint)
  }

  /** The models' locations are where the two axes put their chart points. */
  ghost predicate LocationsCurrent(models: seq<PointLayerModel>, xAxis: real -> real, yAxis: real -> real)
  {
    forall i :: 0 <= i < |models| ==> models[i].screenLoc == AxesScreenLoc(xAxis, yAxis, models[i].chartPoint)
  }

  // ---------------------------------------------------------------------
  // Tap queries

  /** Whether a model lies strictly within `radius` of the tap at `centre`,
      measured from its chart point's current screen location. */
  function IsTapped(centre: Point, radius: real, distance: (Point, Point) -> real,
                    toScreen: (real, real) -> Point): PointLayerModel -> bool
  {
    (m: PointLayerModel) => distance(ChartPointScreenLoc(toScreen, m.chartPoint), centre) < radius
  }

  /** The answer for models already found near the tap: each located at its
      point's global screen location and paired with its distance. */
  function Tag(hits: seq<PointLayerModel>, centre: Point, distance: (Point, Point) -> real,
               toScreen: (real, real) -> Point, toGlobal: ChartPoint -> Point): (r: seq<TappedModel>)
    ensures |r| == |hits|
    ensures forall k :: 0 <= k < |hits| ==>
      r[k] == TappedModel(Copy(hits[k], None, None, Some(toGlobal(hits[k].chartPoint))),
                          distance(ChartPointScreenLoc(toScreen, hits[k].chartPoint), centre))
  {
    seq(|hits|, k requires 0 <= k < |hits| =>
      TappedModel(Copy(hits[k], None, None, Some(toGlobal(hits[k].chartPoint))),
                  distance(ChartPointScreenLoc(toScreen, hits[k].chartPoint), centre)))
  }

  /** The models a tap at `centre` reaches, as the handler receives them. */
  function TappedModels(models: seq<PointLayerModel>, centre: Point, radius: real,
                        distance: (Point, Point) -> real, toScreen: (real, real) -> Point,
                        toGlobal: ChartPoint -> Point): seq<TappedModel>
  {
    Tag(Filter(models, IsTapped(centre, radius, distance, toScreen)), centre, distance, toScreen, toGlobal)
  }

  /** A tap reaches exactly the models strictly within the radius, in model
      order: the answer lists, at increasing model positions `idx`, each such
      model with its global location and its distance, and every model
      within the radius is among them. */
  lemma TappedModelsExact(models: seq<PointLayerModel>, centre: Point, radius: real,
                          distance: (Point, Point) -> real, toScreen: (real, real) -> Point,
                          toGlobal: ChartPoint -> Point) returns (idx: seq<nat>)
    ensures |idx| == |TappedModels(models, centre, radius, distance, toScreen, toGlobal)|
    ensures forall k, l :: 0 <= k < l < |idx| ==> idx[k] < idx[l]
    ensures forall k :: 0 <= k < |idx| ==> (idx[k] < |models| &&
      TappedModels(models, centre, radius, distance, toScreen, toGlobal)[k]
      == TappedModel(models[idx[k]].(screenLoc := toGlobal(models[idx[k]].chartPoint)),
                     distance(ChartPointScreenLoc(toScreen, models[idx[k]].chartPoint), centre)))
    ensures forall k :: 0 <= k < |idx| ==>
      TappedModels(models, centre, radius, distance, toScreen, toGlobal)[k].distance < radius
    ensures forall i :: 0 <= i < |models| ==>
      (distance(ChartPointScreenLoc(toScreen, models[i].chartPoint), centre) < radius <==> i in idx)
  {
    var p := IsTapped(centre, radius, distance, toScreen);
    idx := FilterExact(models, p);
    var hits := Filter(models, p);
    forall k | 0 <= k < |idx|
      ensures p(models[idx[k]])
    {
      assert idx[k] in idx;
    }
  }

  // ---------------------------------------------------------------------
  // Screen location queries

  /** The models whose chart point's screen location satisfies `includePoint`. */
  function Includes(includePoint: Point -> bool, toScreen: (real, real) -> Point): PointLayerModel -> bool
  {
    (m: PointLayerModel) => includePoint(ChartPointScreenLoc(toScreen, m.chartPoint))
  }

  /** `filterChartPoints`: the chart points, in model order, whose screen
      location satisfies `includePoint`. */
  function FilterChartPoints(models: seq<PointLayerModel>, includePoint: Point -> bool,
                             toScreen: (real, real) -> Point): seq<ChartPoint>
  {
    PointsOf(Filter(models, Includes(includePoint, toScreen)))
  }

  /** The filter returns exactly the chart points of the models whose screen
      location satisfies `includePoint`, in model order. */
  lemma FilterChartPointsExact(models: seq<PointLayerModel>, includePoint: Point -> bool,
                               toScreen: (real, real) -> Point) returns (idx: seq<nat>)
    ensures |idx| == |FilterChartPoints(models, includePoint, toScreen)|
    ensures forall k, l :: 0 <= k < l < |idx| ==> idx[k] < idx[l]
    ensures forall k :: 0 <= k < |idx| ==> (idx[k] < |models| &&
      FilterChartPoints(models, includePoint, toScreen)[k] == models[idx[k]].chartPoint)
    ensures forall i :: 0 <= i < |models| ==>
      (includePoint(ChartPointScreenLoc(toScreen, models[i].chartPoint)) <==> i in idx)
  {
    idx := FilterExact(models, Includes(includePoint, toScreen));
  }

  /** `chartPointsForScreenLoc`: the points drawn exactly at `screenLoc`. */
  function ChartPointsForScreenLoc(models: seq<PointLayerModel>, screenLoc: Point,
                                   toScreen: (real, real) -> Point): seq<ChartPoint>
  {
    FilterChartPoints(models, (p: Point) => p == screenLoc, toScreen)
  }

  /** `chartPointsForScreenLocX`: the points drawn at about `x`, where
      `approx` stands for `=~`. */
  function ChartPointsForScreenLocX(models: seq<PointLayerModel>, x: real, approx: (real, real) -> bool,
                                    toScreen: (real, real) -> Point): seq<ChartPoint>
  {
    FilterChartPoints(models, (p: Point) => approx(p.x, x), toScreen)
  }

  /** `chartPointsForScreenLocY`: the points drawn at about `y`. */
  function ChartPointsForScreenLocY(models: seq<PointLayerModel>, y: real, approx: (real, real) -> bool,
                                    toScreen: (real, real) -> Point): seq<ChartPoint>
  {
    FilterChartPoints(models, (p: Point) => approx(p.y, y), toScreen)
  }

  /** A point is returned for a screen location exactly when a model's point
      is drawn there; the points drawn elsewhere are not returned. */
  lemma ChartPointsForScreenLocExact(models: seq<PointLayerModel>, screenLoc: Point,
                                     toScreen: (real, real) -> Point)
    ensures forall p :: p in ChartPointsForScreenLoc(models, screenLoc, toScreen) ==>
      ChartPointScreenLoc(toScreen, p) == screenLoc
    ensures forall i :: 0 <= i < |models| && ChartPointScreenLoc(toScreen, models[i].chartPoint) == screenLoc ==>
      models[i].chartPoint in ChartPointsForScreenLoc(models, screenLoc, toScreen)
    ensures |ChartPointsForScreenLoc(models, screenLoc, toScreen)| <= |models|
  {
    var includePoint := (p: Point) => p == screenLoc;
    var r := FilterChartPoints(models, includePoint, toScreen);
    var idx := FilterChartPointsExact(models, includePoint, toScreen);
    forall p | p in r
      ensures ChartPointScreenLoc(toScreen, p) == screenLoc
    {
      var k :| 0 <= k < |r| && r[k] == p;
      assert idx[k] in idx;
    }
    forall i | 0 <= i < |models| && ChartPointScreenLoc(toScreen, models[i].chartPoint) == screenLoc
      ensures models[i].chartPoint in r
    {
      var k :| 0 <= k < |idx| && idx[k] == i;
      assert r[k] == models[i].chartPoint;
    }
  }

  /** The X and Y variants return exactly the points whose screen `x` (or
      `y`) is `=~` the given coordinate, in model order. */
  lemma ChartPointsForScreenLocXYExact(models: seq<PointLayerModel>, c: real, approx: (real, real) -> bool,
                                       toScreen: (real, real) -> Point)
    ensures forall p :: p in ChartPointsForScreenLocX(models, c, approx, toScreen) ==>
      approx(ChartPointScreenLoc(toScreen, p).x, c)
    ensures forall i :: 0 <= i < |models| && approx(ChartPointScreenLoc(toScreen, models[i].chartPoint).x, c) ==>
      models[i].chartPoint in ChartPointsForScreenLocX(models, c, approx, toScreen)
    ensures forall p :: p in ChartPointsForScreenLocY(models, c, approx, toScreen) ==>
      approx(ChartPointScreenLoc(toScreen, p).y, c)
    ensures forall i :: 0 <= i < |models| && approx(ChartPointScreenLoc(toScreen, models[i].chartPoint).y, c) ==>
      models[i].chartPoint in ChartPointsForScreenLocY(models, c, approx, toScreen)
  {
    var inX := (p: Point) => approx(p.x, c);
    var rx := FilterChartPoints(models, inX, toScreen);
    var ix := FilterChartPointsExact(models, inX, toScreen);
    forall p | p in rx
      ensures approx(ChartPointScreenLoc(toScreen, p).x, c)
    {
      var k :| 0 <= k < |rx| && rx[k] == p;
      assert ix[k] in ix;
    }
    forall i | 0 <= i < |models| && approx(ChartPointScreenLoc(toScreen, models[i].chartPoint).x, c)
      ensures models[i].chartPoint in rx
    {
      var k :| 0 <= k < |ix| && ix[k] == i;
      assert rx[k] == models[i].chartPoint;
    }
    var inY := (p: Point) => approx(p.y, c);
    var ry := FilterChartPoints(models, inY, toScreen);
    var iy := FilterChartPointsExact(models, inY, toScreen);
    forall p | p in ry
      ensures approx(ChartPointScreenLoc(toScreen, p).y, c)
    {
      var k :| 0 <= k < |ry| && ry[k] == p;
      assert iy[k] in iy;
    }
    forall i | 0 <= i < |models| && approx(ChartPointScreenLoc(toScreen, models[i].chartPoint).y, c)
      ensures models[i].chartPoint in ry
    {
      var k :| 0 <= k < |iy| && iy[k] == i;
      assert ry[k] == models[i].chartPoint;
    }
  }

  // ---------------------------------------------------------------------
  // Smallest screen gap

  function Abs(x: real): real
  {
    if x < 0.0 then -x else x
  }

  /** The smaller of two optional values, `None` standing for "none yet". */
  function MinOpt(a: Option<real>, b: Option<real>): Option<real>
  {
    match a
    case None => b
    case Some(x) => match b case None => a case Some(y) => Some(if y < x then y else x)
  }

  /** The state of the `minAxisScreenSpace` fold: the smallest gap so far and
      the previous coordinate; `None` stands for the `CGFloat.max` and
      `-CGFloat.max` start values. */
  datatype SpaceScan = SpaceScan(minSpace: Option<real>, previous: Option<real>)

  /** One step of the fold over a coordinate `d`. */
  function SpaceStep(st: SpaceScan, d: real): SpaceScan
  {
    var gap := match st.previous case None => None case Some(p) => Some(Abs(d - p));
    SpaceScan(MinOpt(st.minSpace, gap), Some(d))
  }

  /** The fold over coordinates, from the left. */
  function ScanSpace(ds: seq<real>): SpaceScan
  {
    if ds == [] then SpaceScan(None, None) else SpaceStep(ScanSpace(ds[..|ds| - 1]), ds[|ds| - 1])
  }

  /** `minAxisScreenSpace` over the picked coordinate of every model. */
  function MinAxisScreenSpace(ds: seq<real>): Option<real>
  {
    ScanSpace(ds).minSpace
  }

  /** The gap between coordinate `i` and the one before it. */
  function Gap(ds: seq<real>, i: nat): real
    requires 1 <= i < |ds|
  {
    Abs(ds[i] - ds[i - 1])
  }

  /** The result is "no gap" exactly when there are fewer than two
      coordinates, and otherwise the smallest gap between coordinates that
      are consecutive in model order: it is at most every such gap and equal
      to one of them. */
  lemma {:induction false} MinAxisScreenSpaceIsMinGap(ds: seq<real>)
    ensures ScanSpace(ds).previous == (if ds == [] then None else Some(ds[|ds| - 1]))
    ensures MinAxisScreenSpace(ds).None? <==> |ds| < 2
    ensures forall i :: 1 <= i < |ds| ==>
      MinAxisScreenSpace(ds).Some? && MinAxisScreenSpace(ds).value <= Gap(ds, i)
    ensures MinAxisScreenSpace(ds).Some? ==>
      exists i :: 1 <= i < |ds| && MinAxisScreenSpace(ds).value == Gap(ds, i)
  {
    if ds != [] {
      var n := |ds| - 1;
      var pre := ds[..n];
      MinAxisScreenSpaceIsMinGap(pre);
      assert forall i :: 0 <= i < n ==> pre[i] == ds[i];
      var r := MinAxisScreenSpace(ds);
      if n > 0 {
        var gap := Gap(ds, n);
        assert forall i :: 1 <= i < n ==> Gap(pre, i) == Gap(ds, i);
        assert ScanSpace(pre).previous == Some(ds[n - 1]);
        if r.value != gap {
          var i :| 1 <= i < |pre| && MinAxisScreenSpace(pre).value == Gap(pre, i);
          assert r.value == Gap(ds, i);
        }
      }
    }
  }

  /** The screen x coordinates of some models. */
  function Xs(models: seq<PointLayerModel>): (r: seq<real>)
    ensures |r| == |models| && forall i :: 0 <= i < |r| ==> r[i] == models[i].screenLoc.x
  {
    seq(|models|, i requires 0 <= i < |models| => models[i].screenLoc.x)
  }

  /** The screen y coordinates of some models. */
  function Ys(models: seq<PointLayerModel>): (r: seq<real>)
    ensures |r| == |models| && forall i :: 0 <= i < |r| ==> r[i] == models[i].screenLoc.y
  {
    seq(|models|, i requires 0 <= i < |models| => models[i].screenLoc.y)
  }

  // ---------------------------------------------------------------------
  // The layer

  /** ChartPointsLayer: fixed chart points and tap handler, and the models
      it rebuilds as the chart is initialised and the axes change. The axes'
      maps and the base layer's `modelLocToScreenLoc` are held separately. */
  class PointsLayer {
    const chartPoints: seq<ChartPoint>
    const displayDelay: real
    const tapHandler: Option<TapHandler>
    var xAxis: real -> real
    var yAxis: real -> real
    var modelLocToScreenLoc: (real, real) -> Point
    var chartPointsModels: seq<PointLayerModel>

    /** A new layer has no models until the chart is initialised. */
    constructor (xAxis: real -> real, yAxis: real -> real, modelLocToScreenLoc: (real, real) -> Point,
                 chartPoints: seq<ChartPoint>, displayDelay: real, tapHandler: Option<TapHandler>)
      ensures this.xAxis == xAxis && this.yAxis == yAxis && this.modelLocToScreenLoc == modelLocToScreenLoc
      ensures this.chartPoints == chartPoints
      ensures this.displayDelay == displayDelay && this.tapHandler == tapHandler
      ensures chartPointsModels == []
    {
      this.xAxis := xAxis;
      this.yAxis := yAxis;
      this.modelLocToScreenLoc := modelLocToScreenLoc;
      this.chartPoints := chartPoints;
      this.displayDelay := displayDelay;
      this.tapHandler := tapHandler;
      chartPointsModels := [];
    }

    /** `chartInitialized`: one model per chart point, indexed by position
      and located by `modelLocToScreenLoc`. */
    method ChartInitialized()
      modifies this`chartPointsModels
      ensures chartPointsModels == ModelsFor(chartPoints, modelLocToScreenLoc)
      ensures PointsOf(chartPointsModels) == chartPoints
      ensures InSync(chartPointsModels, modelLocToScreenLoc)
    {
      chartPointsModels := ModelsFor(chartPoints, modelLocToScreenLoc);
      assert PointsOf(chartPointsModels) == chartPoints;
    }

    /** `handleAxisInnerFrameChange`: the axes now map to new screen ranges
      (`newX`, `newY`, computed by the axis layers) and the base layer's
      model-to-screen map is `newToScreen`; every model is rebuilt with its
      position as index and its point's new location. */
    method HandleAxisInnerFrameChange(newX: real -> real, newY: real -> real, newToScreen: (real, real) -> Point)
      modifies this`xAxis, this`yAxis, this`modelLocToScreenLoc, this`chartPointsModels
      ensures xAxis == newX && yAxis == newY && modelLocToScreenLoc == newToScreen
      ensures chartPointsModels == ModelsFor(PointsOf(old(chartPointsModels)), newToScreen)
      ensures PointsOf(chartPointsModels) == PointsOf(old(chartPointsModels))
      ensures InSync(chartPointsModels, modelLocToScreenLoc)
    {
      xAxis, yAxis, modelLocToScreenLoc := newX, newY, newToScreen;
      var models := chartPointsModels;
      chartPointsModels := seq(|models|, i requires 0 <= i < |models| =>
        PointLayerModel(models[i].chartPoint, i, ChartPointScreenLoc(newToScreen, models[i].chartPoint)));
      assert chartPointsModels == ModelsFor(PointsOf(models), newToScreen);
      assert PointsOf(chartPointsModels) == PointsOf(models);
    }

    /** `updateChartPointsScreenLocations`: in place, every model's screen
      location becomes its point's location on the current axes; its point
      and index stay. Models indexed by position, under axes that agree with
      `modelLocToScreenLoc`, end up in sync. */
    method UpdateChartPointsScreenLocations()
      modifies this`chartPointsModels
      ensures |chartPointsModels| == |old(chartPointsModels)|
      ensures forall i :: 0 <= i < |chartPointsModels| ==>
        chartPointsModels[i] == old(chartPointsModels)[i].(screenLoc := AxesScreenLoc(xAxis, yAxis, old(chartPointsModels)[i].chartPoint))
      ensures PointsOf(chartPointsModels) == PointsOf(old(chartPointsModels))
      ensures LocationsCurrent(chartPointsModels, xAxis, yAxis)
      ensures CoordsAgree(modelLocToScreenLoc, xAxis, yAxis) &&
              (forall i :: 0 <= i < |old(chartPointsModels)| ==> old(chartPointsModels)[i].index == i) ==>
                InSync(chartPointsModels, modelLocToScreenLoc)
    {
      var i := 0;
      while i < |chartPointsModels|
        invariant 0 <= i <= |chartPointsModels| == |old(chartPointsModels)|
        invariant forall k :: 0 <= k < i ==>
          chartPointsModels[k] == old(chartPointsModels)[k].(screenLoc := AxesScreenLoc(xAxis, yAxis, old(chartPointsModels)[k].chartPoint))
        invariant forall k :: i <= k < |chartPointsModels| ==> chartPointsModels[k] == old(chartPointsModels)[k]
      {
        var chartPointModel := chartPointsModels[i];
        var loc := Point(xAxis(chartPointModel.chartPoint.x.scalar), yAxis(chartPointModel.chartPoint.y.scalar));
        chartPointsModels := chartPointsModels[i := chartPointModel.(screenLoc := loc)];
        i := i + 1;
      }
      assert PointsOf(chartPointsModels) == PointsOf(old(chartPointsModels));
    }

    /** `handleGlobalTap`: `None` when the layer has no tap handler (nothing
      happens); otherwise what the handler receives, collected in model order.
      The local coordinates of a tap are its global ones. */
    method HandleGlobalTap(location: Point, distance: (Point, Point) -> real, toGlobal: ChartPoint -> Point)
      returns (tapped: Option<seq<TappedModel>>)
      ensures tapHandler.None? ==> tapped.None?
      ensures tapHandler.Some? ==> tapped == Some(TappedModels(chartPointsModels, location, tapHandler.value.radius,
                                                               distance, modelLocToScreenLoc, toGlobal))
    {
      if tapHandler.None? {
        return None;
      }
      var radius := tapHandler.value.radius;
      var localCenter := location;
      ghost var isTapped := IsTapped(localCenter, radius, distance, modelLocToScreenLoc);
      var models: seq<TappedModel> := [];
      var i := 0;
      while i < |chartPointsModels|
        invariant 0 <= i <= |chartPointsModels|
        invariant models == Tag(Filter(chartPointsModels[..i], isTapped), localCenter, distance, modelLocToScreenLoc, toGlobal)
      {
        var chartPointModel := chartPointsModels[i];
        var transformedScreenLoc := modelLocToScreenLoc(chartPointModel.chartPoint.x.scalar, chartPointModel.chartPoint.y.scalar);
        var d := distance(transformedScreenLoc, localCenter);
        ghost var before := Filter(chartPointsModels[..i], isTapped);
        ghost var upTo := chartPointsModels[..i + 1];
        assert upTo[..|upTo| - 1] == chartPointsModels[..i] && upTo[|upTo| - 1] == chartPointModel;
        assert transformedScreenLoc == ChartPointScreenLoc(modelLocToScreenLoc, chartPointModel.chartPoint);
        assert isTapped(chartPointModel) == (distance(ChartPointScreenLoc(modelLocToScreenLoc, chartPointModel.chartPoint), localCenter) < radius);
        if d < radius {
          var hit := TappedModel(Copy(chartPointModel, None, None, Some(toGlobal(chartPointModel.chartPoint))), d);
          assert Filter(chartPointsModels[..i + 1], isTapped) == before + [chartPointModel];
          models := models + [hit];
        } else {
          assert Filter(chartPointsModels[..i + 1], isTapped) == before;
        }
        i := i + 1;
      }
      assert chartPointsModels[..i] == chartPointsModels;
      return Some(models);
    }

    /** `minXScreenSpace`: the smallest x gap between consecutive models. */
    function MinXScreenSpace(): Option<real>
      reads this
    {
      MinAxisScreenSpace(Xs(chartPointsModels))
    }

    /** `minYScreenSpace`: the smallest y gap between consecutive models. */
    function MinYScreenSpace(): Option<real>
      reads this
    {
      MinAxisScreenSpace(Ys(chartPointsModels))
    }
  }
}
