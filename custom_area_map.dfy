/** The map on which custom areas are drawn. Stored areas arrive as loosely
    typed data and are sanitised before being drawn: an area needs an array
    of coordinates, each coordinate must be an array whose first two
    elements are numbers, and an area with no usable coordinate is skipped.
    A shape the user draws is added to the same feature group and reported
    with a generated name. */
module CustomAreaMap {
  import opened Wrappers
  import opened JsNumbers
  import opened Backend

  /** A JavaScript number: `typeof x === 'number'` holds for both. */
  datatype Number = Finite(value: real) | NotANumber

  /** The JavaScript values the map inspects. */
  datatype JsValue = Num(n: Number) | Arr(items: seq<JsValue>) | Other

  /** An element of `drawnAreas`; `Missing` is a null or undefined entry. */
  datatype AreaInput =
    | Missing
    | AreaRecord(name: string, coordinates: JsValue, coverage: Option<JsValue>)

  /** `[coord[0], coord[1]]` */
  datatype Point = Point(lat: Number, lng: Number)

  /** `coverage !== undefined && coverage !== null && typeof coverage === 'number' && !isNaN(coverage)`
      picks the tooltip; the coverage is shown with one decimal. */
  datatype Tooltip = NameOnly(name: string) | NameAndCoverage(name: string, coverage: real)

  datatype MapLayer =
    | AreaPolygon(points: seq<Point>, tooltip: Tooltip)
    | DrawnShape(ring: seq<LatLng>)

  /** A shape reported to `onAreaDrawn`. */
  datatype DrawnArea = DrawnArea(id: string, name: string, coordinates: seq<LatLng>)

  predicate IsNumber(v: JsValue) {
    v.Num?
  }

  /** The coordinate filter. */
  predicate ValidCoordinate(c: JsValue) {
    c.Arr? && |c.items| >= 2 && IsNumber(c.items[0]) && IsNumber(c.items[1])
  }

  /** `coordinates.filter(ValidCoordinate).map(c => [c[0], c[1]])` */
  function Sanitize(coords: seq<JsValue>): (r: seq<Point>)
    ensures |r| <= |coords|
    ensures (forall i :: 0 <= i < |coords| ==> ValidCoordinate(coords[i])) ==> |r| == |coords|
    ensures r == [] <==> forall i :: 0 <= i < |coords| ==> !ValidCoordinate(coords[i])
  {
    if |coords| == 0 then []
    else
      var last := coords[|coords| - 1];
      Sanitize(coords[..|coords| - 1])
        + (if ValidCoordinate(last) then [Point(last.items[0].n, last.items[1].n)] else [])
  }

  /** Sanitising preserves order: it distributes over concatenation. */
  lemma {:induction false} SanitizeAppend(xs: seq<JsValue>, ys: seq<JsValue>)
    ensures Sanitize(xs + ys) == Sanitize(xs) + Sanitize(ys)
    decreases |ys|
  {
    if |ys| == 0 {
      assert xs + ys == xs;
    } else {
      var n := |ys| - 1;
      assert (xs + ys)[..|xs + ys| - 1] == xs + ys[..n];
      assert (xs + ys)[|xs + ys| - 1] == ys[n];
      SanitizeAppend(xs, ys[..n]);
    }
  }

  /** Every kept point is the first two values of some valid coordinate. */
  lemma {:induction false} SanitizedPointsComeFromInput(coords: seq<JsValue>, k: nat)
    requires k < |Sanitize(coords)|
    ensures exists i :: 0 <= i < |coords| && ValidCoordinate(coords[i])
                        && Sanitize(coords)[k] == Point(coords[i].items[0].n, coords[i].items[1].n)
  {
    var n := |coords| - 1;
    var front := Sanitize(coords[..n]);
    if k < |front| {
      SanitizedPointsComeFromInput(coords[..n], k);
      var i :| 0 <= i < |coords[..n]| && ValidCoordinate(coords[..n][i])
               && front[k] == Point(coords[..n][i].items[0].n, coords[..n][i].items[1].n);
      assert coords[..n][i] == coords[i];
    } else {
      assert ValidCoordinate(coords[n]);
    }
  }

  function TooltipFor(name: string, coverage: Option<JsValue>): (t: Tooltip)
    ensures t.name == name
    ensures t.NameAndCoverage? <==> coverage.Some? && coverage.value.Num? && coverage.value.n.Finite?
    ensures t.NameAndCoverage? ==> coverage == Some(Num(Finite(t.coverage)))
  {
    match coverage
    case Some(Num(Finite(x))) => NameAndCoverage(name, x)
    case _ => NameOnly(name)
  }

  /** The area passes the checks of the render loop. */
  predicate Drawable(a: AreaInput) {
    a.AreaRecord? && a.coordinates.Arr? && Sanitize(a.coordinates.items) != []
  }

  /** The polygon one element of `drawnAreas` contributes, if any. */
  function AreaLayer(a: AreaInput): (r: seq<MapLayer>)
    ensures |r| <= 1
    ensures |r| == 1 <==> Drawable(a)
    ensures |r| == 1 ==> r[0].AreaPolygon? && |r[0].points| > 0
  {
    if Drawable(a) then
      [AreaPolygon(Sanitize(a.coordinates.items), TooltipFor(a.name, a.coverage))]
    else []
  }

  /** The feature group's content after drawing `areas`. */
  function Polygons(areas: seq<AreaInput>): (r: seq<MapLayer>)
    ensures |r| <= |areas|
    ensures forall k :: 0 <= k < |r| ==> r[k].AreaPolygon? && |r[k].points| > 0
  {
    if |areas| == 0 then []
    else Polygons(areas[..|areas| - 1]) + AreaLayer(areas[|areas| - 1])
  }

  lemma PolygonsStep(areas: seq<AreaInput>, i: nat)
    requires i < |areas|
    ensures Polygons(areas[..i + 1]) == Polygons(areas[..i]) + AreaLayer(areas[i])
  {
    assert areas[..i + 1][..i] == areas[..i];
  }

  /** The number of areas that survive validation. */
  function DrawableCount(areas: seq<AreaInput>): nat {
    if |areas| == 0 then 0
    else DrawableCount(areas[..|areas| - 1]) + (if Drawable(areas[|areas| - 1]) then 1 else 0)
  }

  /** One polygon per surviving area. */
  lemma {:induction false} PolygonCount(areas: seq<AreaInput>)
    ensures |Polygons(areas)| == DrawableCount(areas)
  {
    if |areas| > 0 {
      PolygonCount(areas[..|areas| - 1]);
    }
  }

  /** Areas that are all valid are all drawn, in order, none skipped. */
  lemma {:induction false} AllDrawableAllDrawn(areas: seq<AreaInput>)
    requires forall i :: 0 <= i < |areas| ==> Drawable(areas[i])
    ensures |Polygons(areas)| == |areas|
  {
    if |areas| > 0 {
      AllDrawableAllDrawn(areas[..|areas| - 1]);
    }
  }

  const AreaNamePrefix: string := "Custom Area "

  class MapView {
    /** `isMapReady` and whether `leafletElements` is set. */
    var isMapReady: bool
    var hasElements: bool
    /** The layers of the `drawnItems` feature group. */
    var drawnItems: seq<MapLayer>
    /** The `onAreaDrawn` calls, oldest first. */
    var reported: seq<DrawnArea>

    constructor()
      ensures !isMapReady && !hasElements && drawnItems == [] && reported == []
    {
      isMapReady := false;
      hasElements := false;
      drawnItems := [];
      reported := [];
    }

    /** The mount effect: nothing happens without a container or when the
        map is already set up; `loaded` is whether loading Leaflet succeeded. */
    method Initialize(containerPresent: bool, loaded: bool)
      modifies this
      ensures !containerPresent || old(isMapReady) || old(hasElements) || !loaded ==>
                isMapReady == old(isMapReady) && hasElements == old(hasElements) && drawnItems == old(drawnItems)
      ensures containerPresent && !old(isMapReady) && !old(hasElements) && loaded ==>
                isMapReady && hasElements && drawnItems == []
      ensures reported == old(reported)
    {
      if !containerPresent || isMapReady || hasElements {
        return;
      }
      if loaded {
        drawnItems := [];
        hasElements := true;
        isMapReady := true;
      }
    }

    /** The effect that redraws `drawnAreas`: the group is cleared, then each
        area that survives validation is added as one polygon. */
    method RenderAreas(areas: seq<AreaInput>)
      modifies this`drawnItems
      ensures !hasElements || !isMapReady ==> drawnItems == old(drawnItems)
      ensures hasElements && isMapReady ==> drawnItems == Polygons(areas)
    {
      if !hasElements || !isMapReady {
        return;
      }
      drawnItems := [];
      var i := 0;
      while i < |areas|
        invariant 0 <= i <= |areas|
        invariant drawnItems == Polygons(areas[..i])
      {
        PolygonsStep(areas, i);
        var area := areas[i];
        if area.AreaRecord? && area.coordinates.Arr? {
          var latLngs := Sanitize(area.coordinates.items);
          if latLngs != [] {
            drawnItems := drawnItems + [AreaPolygon(latLngs, TooltipFor(area.name, area.coverage))];
          }
        }
        i := i + 1;
      }
      assert areas[..|areas|] == areas;
    }

    /** `draw:created`: the shape joins the group and is reported with the
        time stamp as id and a name numbered by the group's new size; a
        shape without a ring throws before anything happens. */
    method OnDrawCreated(rings: seq<seq<LatLng>>, now: nat)
      modifies this
      ensures |rings| == 0 ==> drawnItems == old(drawnItems) && reported == old(reported)
      ensures |rings| > 0 ==>
                drawnItems == old(drawnItems) + [DrawnShape(rings[0])]
                && reported == old(reported)
                   + [DrawnArea(NatToString(now), AreaNamePrefix + NatToString(|old(drawnItems)| + 1), rings[0])]
      ensures isMapReady == old(isMapReady) && hasElements == old(hasElements)
    {
      if |rings| == 0 {
        return;
      }
      var coordinates := rings[0];
      drawnItems := drawnItems + [DrawnShape(coordinates)];
      var name := AreaNamePrefix + NatToString(|drawnItems|);
      reported := reported + [DrawnArea(NatToString(now), name, coordinates)];
    }

    /** The unmount cleanup. */
    method Cleanup()
      modifies this
      ensures !isMapReady && !hasElements
      ensures drawnItems == old(drawnItems) && reported == old(reported)
    {
      isMapReady := false;
      hasElements := false;
    }
  }

  /** After stored areas are drawn, a newly drawn shape's number counts the
      stored polygons too: with `n` surviving areas it is named `Custom Area n+1`. */
  method DrawAfterRender(areas: seq<AreaInput>, ring: seq<LatLng>, now: nat) returns (name: string)
    ensures name == AreaNamePrefix + NatToString(DrawableCount(areas) + 1)
  {
    var m := new MapView();
    m.Initialize(true, true);
    m.RenderAreas(areas);
    m.OnDrawCreated([ring], now);
    PolygonCount(areas);
    name := m.reported[|m.reported| - 1].name;
  }
}
