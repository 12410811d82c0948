/**
 * The map page's measurement tool: clicks accumulate into a point list,
 * a click near the first point closes the shape, and the displayed
 * distance, area and map overlay are recomputed after every click.
 *
 * The geometry library (great-circle distance, line length, polygon
 * area) is an opaque parameter: only what the page does with its numbers
 * is modelled.
 */
module Measurement {

  /** A clicked map position. Coordinates are compared exactly. */
  datatype LngLat = LngLat(lng: int, lat: int)

  /** The geometry library the page calls: distance in metres, length in km, area in square metres. */
  datatype Turf = Turf(
    distanceMetres: (LngLat, LngLat) -> real,
    lengthKm: seq<LngLat> -> real,
    areaSqMetres: seq<LngLat> -> real)

  /**
   * A feature of the measurement overlay. A segment label sits at the
   * midpoint of its segment and shows the segment length in km; the
   * midpoint itself is left to the renderer.
   */
  datatype Feature =
    | PointFeature(at: LngLat, id: nat)
    | LineFeature(coords: seq<LngLat>)
    | SegmentLabel(from: LngLat, to: LngLat, km: real)
    | PolygonFeature(ring: seq<LngLat>)

  datatype FeatureKind = PointKind | LineKind | LabelKind | PolygonKind

  function KindOf(f: Feature): FeatureKind
  {
    match f
    case PointFeature(_, _) => PointKind
    case LineFeature(_) => LineKind
    case SegmentLabel(_, _, _) => LabelKind
    case PolygonFeature(_) => PolygonKind
  }

  const SquareMetresPerSquareKm: real := 1000000.0

  /** The shape counts as a polygon when it has more than two points and ends where it began. */
  predicate IsClosed(pts: seq<LngLat>)
  {
    |pts| > 2 && pts[0] == pts[|pts| - 1]
  }

  /** The closing test: the click lies within `20 * zoom / 10` metres of the first point. */
  predicate NearFirst(turf: Turf, pts: seq<LngLat>, click: LngLat, zoom: real)
    requires |pts| > 0
  {
    turf.distanceMetres(pts[0], click) < 20.0 * (zoom / 10.0)
  }

  /**
   * The point list after one click: with at least two points already and
   * the click near the first one, the first point is appended again;
   * otherwise the raw click is.
   */
  function AppendClick(pts: seq<LngLat>, click: LngLat, nearFirst: bool): (r: seq<LngLat>)
    ensures |r| == |pts| + 1 && r[..|pts|] == pts
    ensures |pts| > 1 && nearFirst ==> r[|pts|] == pts[0] && IsClosed(r)
    ensures !(|pts| > 1 && nearFirst) ==> r[|pts|] == click
    ensures |pts| == 0 ==> r == [click]
  {
    if |pts| > 0 && nearFirst && |pts| > 1 then pts + [pts[0]] else pts + [click]
  }

  /** The displayed total distance: the length of the line through all points, or 0 below two points. */
  function TotalDistance(turf: Turf, pts: seq<LngLat>): (d: real)
    ensures |pts| <= 1 ==> d == 0.0
  {
    if |pts| > 1 then turf.lengthKm(pts) else 0.0
  }

  /** The displayed total area in km²: the polygon's area once the shape is closed, else 0. */
  function TotalArea(turf: Turf, pts: seq<LngLat>): (a: real)
    ensures a != 0.0 ==> IsClosed(pts)
    ensures |pts| <= 1 ==> a == 0.0
  {
    if |pts| > 1 && IsClosed(pts) then turf.areaSqMetres(pts) / SquareMetresPerSquareKm else 0.0
  }

  /** One point feature per point, numbered in click order. */
  function PointFeatures(pts: seq<LngLat>): seq<Feature>
  {
    seq(|pts|, i requires 0 <= i < |pts| => PointFeature(pts[i], i))
  }

  /** One label per pair of consecutive points, carrying that segment's length. */
  function SegmentLabels(turf: Turf, pts: seq<LngLat>): seq<Feature>
  {
    if |pts| < 2 then []
    else seq(|pts| - 1, i requires 0 <= i < |pts| - 1 =>
           SegmentLabel(pts[i], pts[i + 1], turf.lengthKm([pts[i], pts[i + 1]])))
  }

  /** The overlay drawn for a point list: points, then the line, its labels and the polygon. */
  function Overlay(turf: Turf, pts: seq<LngLat>): seq<Feature>
  {
    PointFeatures(pts) +
    if |pts| > 1 then
      [LineFeature(pts)] + SegmentLabels(turf, pts) + (if IsClosed(pts) then [PolygonFeature(pts)] else [])
    else []
  }

  /** How many features of a kind a feature list holds. */
  function CountKind(fs: seq<Feature>, k: FeatureKind): nat
  {
    if fs == [] then 0
    else (if KindOf(fs[0]) == k then 1 else 0) + CountKind(fs[1..], k)
  }

  lemma {:induction false} CountKindConcat(fs: seq<Feature>, gs: seq<Feature>, k: FeatureKind)
    ensures CountKind(fs + gs, k) == CountKind(fs, k) + CountKind(gs, k)
  {
    if fs == [] {
      assert fs + gs == gs;
    } else {
      assert (fs + gs)[1..] == fs[1..] + gs;
      CountKindConcat(fs[1..], gs, k);
    }
  }

  /** A list whose features are all of kind `j` holds |fs| of that kind and none of any other. */
  lemma {:induction false} CountKindUniform(fs: seq<Feature>, j: FeatureKind, k: FeatureKind)
    requires forall i :: 0 <= i < |fs| ==> KindOf(fs[i]) == j
    ensures CountKind(fs, k) == if j == k then |fs| else 0
  {
    if fs != [] {
      CountKindUniform(fs[1..], j, k);
    }
  }

  /**
   * The overlay holds exactly n point features, one line when n > 1,
   * n - 1 segment labels, and one polygon exactly when the shape is
   * closed; its size is the sum of these.
   */
  lemma {:induction false} OverlayComposition(turf: Turf, pts: seq<LngLat>)
    ensures CountKind(Overlay(turf, pts), PointKind) == |pts|
    ensures CountKind(Overlay(turf, pts), LineKind) == if |pts| > 1 then 1 else 0
    ensures CountKind(Overlay(turf, pts), LabelKind) == if |pts| > 1 then |pts| - 1 else 0
    ensures CountKind(Overlay(turf, pts), PolygonKind) == if IsClosed(pts) then 1 else 0
    ensures |Overlay(turf, pts)| ==
            |pts| + (if |pts| > 1 then 1 + (|pts| - 1) else 0) + (if IsClosed(pts) then 1 else 0)
  {
    var ps := PointFeatures(pts);
    var labels := SegmentLabels(turf, pts);
    var poly: seq<Feature> := if IsClosed(pts) then [PolygonFeature(pts)] else [];
    forall k: FeatureKind
      ensures CountKind(ps, k) == if k == PointKind then |pts| else 0
      ensures CountKind(labels, k) == if k == LabelKind then |labels| else 0
      ensures CountKind(poly, k) == if k == PolygonKind then |poly| else 0
      ensures CountKind([LineFeature(pts)], k) == if k == LineKind then 1 else 0
    {
      CountKindUniform(ps, PointKind, k);
      CountKindUniform(labels, LabelKind, k);
      CountKindUniform(poly, PolygonKind, k);
      CountKindUniform([LineFeature(pts)], LineKind, k);
    }
    if |pts| > 1 {
      var rest := [LineFeature(pts)] + labels + poly;
      assert Overlay(turf, pts) == ps + rest;
      forall k: FeatureKind
        ensures CountKind(Overlay(turf, pts), k) ==
                CountKind(ps, k) + CountKind([LineFeature(pts)], k) + CountKind(labels, k) + CountKind(poly, k)
      {
        CountKindConcat(ps, rest, k);
        CountKindConcat([LineFeature(pts)] + labels, poly, k);
        CountKindConcat([LineFeature(pts)], labels, k);
      }
    } else {
      assert Overlay(turf, pts) == ps;
      assert !IsClosed(pts);
    }
  }

  /**
   * Assembles the overlay of a point list step by step, together with the
   * totals the page displays for it.
   */
  method BuildOverlay(turf: Turf, pts: seq<LngLat>) returns (features: seq<Feature>, distance: real, area: real)
    ensures features == Overlay(turf, pts)
    ensures distance == TotalDistance(turf, pts) && area == TotalArea(turf, pts)
  {
    features := PointFeatures(pts);
    if |pts| > 1 {
      features := features + [LineFeature(pts)];
      distance := turf.lengthKm(pts);
      var labels := SegmentLabels(turf, pts);
      for i := 0 to |pts| - 1
        invariant features == PointFeatures(pts) + [LineFeature(pts)] + labels[..i]
      {
        var segLength := turf.lengthKm([pts[i], pts[i + 1]]);
        features := features + [SegmentLabel(pts[i], pts[i + 1], segLength)];
        assert labels[..i + 1] == labels[..i] + [labels[i]];
      }
      assert labels[..|pts| - 1] == labels;
      var first := pts[0];
      var last := pts[|pts| - 1];
      if |pts| > 2 && first.lng == last.lng && first.lat == last.lat {
        features := features + [PolygonFeature(pts)];
        area := turf.areaSqMetres(pts) / SquareMetresPerSquareKm;
        assert IsClosed(pts);
      } else {
        area := 0.0;
        assert !IsClosed(pts);
      }
    } else {
      distance := 0.0;
      area := 0.0;
    }
    assert features == Overlay(turf, pts);
  }

  /**
   * The measurement state of the map page. The displayed totals and the
   * overlay are always those of the current point list.
   */
  class MeasurementTool {
    const turf: Turf
    var isMeasuring: bool
    var points: seq<LngLat>
    var totalDistance: real
    var totalArea: real
    var overlay: seq<Feature>

    ghost predicate Valid()
      reads this
    {
      && totalDistance == TotalDistance(turf, points)
      && totalArea == TotalArea(turf, points)
      && overlay == Overlay(turf, points)
    }

    constructor (turf: Turf)
      ensures Valid() && this.turf == turf
      ensures !isMeasuring && points == [] && overlay == []
      ensures totalDistance == 0.0 && totalArea == 0.0
    {
      this.turf := turf;
      isMeasuring := false;
      points := [];
      totalDistance := 0.0;
      totalArea := 0.0;
      overlay := [];
    }

    /**
     * A click on the map. Outside measuring mode, or before the map
     * exists, nothing happens; otherwise one point is appended and the
     * totals and overlay are recomputed.
     */
    method HandleMapClick(click: LngLat, zoom: real, mapReady: bool)
      requires Valid()
      modifies this
      ensures Valid()
      ensures !(old(isMeasuring) && mapReady) ==> unchanged(this)
      ensures old(isMeasuring) && mapReady ==>
                points == AppendClick(old(points), click,
                                      |old(points)| > 0 && NearFirst(turf, old(points), click, zoom))
      ensures isMeasuring == old(isMeasuring)
    {
      if !isMeasuring || !mapReady {
        return;
      }
      var currentPoints := points;
      if |currentPoints| > 0 {
        var dist := turf.distanceMetres(currentPoints[0], click);
        if dist < 20.0 * (zoom / 10.0) && |currentPoints| > 1 {
          currentPoints := currentPoints + [currentPoints[0]];
        } else {
          currentPoints := currentPoints + [click];
        }
      } else {
        currentPoints := currentPoints + [click];
      }
      points := currentPoints;
      overlay, totalDistance, totalArea := BuildOverlay(turf, currentPoints);
    }

    /** The Clear button: drops every point, zeroes both totals and empties the overlay. */
    method ClearMeasurement()
      requires Valid()
      modifies this
      ensures Valid()
      ensures points == [] && totalDistance == 0.0 && totalArea == 0.0 && overlay == []
      ensures isMeasuring == old(isMeasuring)
    {
      points := [];
      totalDistance := 0.0;
      totalArea := 0.0;
      overlay := [];
    }

    /** The measuring button: flips the mode and clears the measurement when switching it off. */
    method ToggleMeasurement()
      requires Valid()
      modifies this
      ensures Valid()
      ensures isMeasuring == !old(isMeasuring)
      ensures old(isMeasuring) ==> points == [] && totalDistance == 0.0 && totalArea == 0.0 && overlay == []
      ensures !old(isMeasuring) ==> points == old(points) && overlay == old(overlay)
      ensures !old(isMeasuring) ==> totalDistance == old(totalDistance) && totalArea == old(totalArea)
    {
      var wasMeasuring := isMeasuring;
      if wasMeasuring {
        ClearMeasurement();
      }
      isMeasuring := !wasMeasuring;
    }
  }
}
