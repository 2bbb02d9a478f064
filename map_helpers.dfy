/** The map view's helpers (client/src/utils/mapHelpers.js): the GeoJSON the
    map draws, and which farms fall inside the visible rectangle. Vertices are
    stored [lat, lng]; GeoJSON wants [lng, lat]. */
module MapHelpers {
  import opened Wrappers
  import Seqs
  import opened Farms

  /** The map's visible rectangle (`getWest()`, `getEast()`, `getSouth()`, `getNorth()`). */
  datatype Bounds = Bounds(west: real, east: real, south: real, north: real)

  /** `properties` of a feature. */
  datatype Properties = Properties(id: int, farmerName: string, crop: string, location: string)

  /** A polygon geometry: a list of rings of [lng, lat] positions. */
  datatype Geometry = Polygon(coordinates: seq<seq<(real, real)>>)

  datatype Feature = Feature(id: int, geometry: Geometry, properties: Properties)

  datatype FeatureCollection = FeatureCollection(features: seq<Feature>)

  /** `([lat, lng]) => [lng, lat]` over a whole ring. */
  function SwapRing(ring: seq<(real, real)>): (r: seq<(real, real)>)
    ensures |r| == |ring|
    ensures forall i :: 0 <= i < |ring| ==> r[i].0 == ring[i].1 && r[i].1 == ring[i].0
  {
    seq(|ring|, i requires 0 <= i < |ring| => (ring[i].1, ring[i].0))
  }

  /** Swapping the coordinates twice gives back the ring. */
  lemma SwapRingTwice(ring: seq<(real, real)>)
    ensures SwapRing(SwapRing(ring)) == ring
  {
    var back := SwapRing(SwapRing(ring));
    assert forall i :: 0 <= i < |ring| ==> back[i] == ring[i];
  }

  /** The feature drawn for one farm: its polygon as the one ring, in [lng, lat]
      order, from which the polygon can be read back. */
  function ToFeature(farm: Farm): (r: Feature)
    ensures r.id == farm.id && r.properties.id == farm.id
    ensures r.properties.farmerName == farm.farmerName && r.properties.crop == farm.crop
      && r.properties.location == farm.location
    ensures |r.geometry.coordinates| == 1 && SwapRing(r.geometry.coordinates[0]) == farm.polygon
  {
    SwapRingTwice(farm.polygon);
    Feature(
      farm.id,
      Polygon([SwapRing(farm.polygon)]),
      Properties(farm.id, farm.farmerName, farm.crop, farm.location))
  }

  /** `farmsToGeoJSON`: one feature per farm, in farm order. */
  function FarmsToGeoJSON(farms: seq<Farm>): (r: FeatureCollection)
    ensures |r.features| == |farms|
    ensures forall i :: 0 <= i < |farms| ==>
      && r.features[i].id == farms[i].id
      && r.features[i].properties == Properties(farms[i].id, farms[i].farmerName, farms[i].crop, farms[i].location)
      && |r.features[i].geometry.coordinates| == 1
      && |r.features[i].geometry.coordinates[0]| == |farms[i].polygon|
  {
    FeatureCollection(seq(|farms|, i requires 0 <= i < |farms| => ToFeature(farms[i])))
  }

  /** Every feature's ring swapped back is its farm's polygon: no vertex is
      lost, added or moved. */
  lemma GeoJSONRingsRoundTrip(farms: seq<Farm>)
    ensures forall i :: 0 <= i < |farms| ==>
      SwapRing(FarmsToGeoJSON(farms).features[i].geometry.coordinates[0]) == farms[i].polygon
  {
    var fc := FarmsToGeoJSON(farms);
    forall i | 0 <= i < |farms|
      ensures SwapRing(fc.features[i].geometry.coordinates[0]) == farms[i].polygon
    {
      assert fc.features[i] == ToFeature(farms[i]);
      SwapRingTwice(farms[i].polygon);
    }
  }

  /** One [lat, lng] vertex lies in the closed rectangle. */
  predicate VertexInBounds(v: LatLng, b: Bounds) {
    var (lat, lng) := v;
    b.west <= lng && lng <= b.east && b.south <= lat && lat <= b.north
  }

  /** `isPolygonInBounds`: `polygon.some(...)`, so at least one vertex must be inside. */
  function IsPolygonInBounds(polygon: seq<LatLng>, b: Bounds): (r: bool)
    ensures r <==> exists i :: 0 <= i < |polygon| && VertexInBounds(polygon[i], b)
    ensures polygon == [] ==> !r
  {
    if polygon == [] then false
    else if VertexInBounds(polygon[0], b) then true
    else
      var r := IsPolygonInBounds(polygon[1..], b);
      assert r ==> exists i :: 0 <= i < |polygon| && VertexInBounds(polygon[i], b) by {
        if r {
          var j :| 0 <= j < |polygon[1..]| && VertexInBounds(polygon[1..][j], b);
          assert polygon[j + 1] == polygon[1..][j];
        }
      }
      assert (exists i :: 0 <= i < |polygon| && VertexInBounds(polygon[i], b)) ==> r by {
        if exists i :: 0 <= i < |polygon| && VertexInBounds(polygon[i], b) {
          var j :| 0 <= j < |polygon| && VertexInBounds(polygon[j], b);
          assert j != 0;
          assert polygon[1..][j - 1] == polygon[j];
        }
      }
      r
  }

  /** The filter `getVisibleFarms` applies. */
  function InBounds(b: Bounds): Farm -> bool {
    (farm: Farm) => IsPolygonInBounds(farm.polygon, b)
  }

  /** `getVisibleFarms`: no bounds or no farms shows nothing; otherwise the farms
      with a vertex in view, in farm order. */
  function GetVisibleFarms(farms: seq<Farm>, mapBounds: Option<Bounds>): (r: seq<Farm>)
    ensures mapBounds.None? || farms == [] ==> r == []
    ensures mapBounds.Some? ==> r == Seqs.Filter(farms, InBounds(mapBounds.value))
    ensures forall f | f in r :: f in farms && mapBounds.Some? && IsPolygonInBounds(f.polygon, mapBounds.value)
    ensures forall f | f in farms && mapBounds.Some? && IsPolygonInBounds(f.polygon, mapBounds.value) :: f in r
  {
    if mapBounds.None? || farms == [] then []
    else Seqs.Filter(farms, InBounds(mapBounds.value))
  }

  /** `wide` contains `narrow`. */
  predicate Widens(narrow: Bounds, wide: Bounds) {
    wide.west <= narrow.west && narrow.east <= wide.east && wide.south <= narrow.south && narrow.north <= wide.north
  }

  /** A polygon in view stays in view when the bounds grow. */
  lemma PolygonStaysInWiderBounds(polygon: seq<LatLng>, narrow: Bounds, wide: Bounds)
    requires Widens(narrow, wide) && IsPolygonInBounds(polygon, narrow)
    ensures IsPolygonInBounds(polygon, wide)
  {
    var i :| 0 <= i < |polygon| && VertexInBounds(polygon[i], narrow);
    assert VertexInBounds(polygon[i], wide);
  }

  /** Zooming out never hides a farm: the farms visible in the narrower bounds
      are, in order, those of the wider bounds' visible farms that are in the
      narrower bounds. */
  lemma VisibleFarmsMonotone(farms: seq<Farm>, narrow: Bounds, wide: Bounds)
    requires Widens(narrow, wide)
    ensures GetVisibleFarms(farms, Some(narrow)) == Seqs.Filter(GetVisibleFarms(farms, Some(wide)), InBounds(narrow))
    ensures forall f | f in GetVisibleFarms(farms, Some(narrow)) :: f in GetVisibleFarms(farms, Some(wide))
  {
    forall f ensures InBounds(narrow)(f) == (InBounds(wide)(f) && InBounds(narrow)(f)) {
      if InBounds(narrow)(f) {
        PolygonStaysInWiderBounds(f.polygon, narrow, wide);
      }
    }
    Seqs.FilterFilter(farms, InBounds(wide), InBounds(narrow), InBounds(narrow));
  }
}
