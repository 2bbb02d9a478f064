/** The in-memory NDVI time-series store (data/ndviData.js). */
module NdviData {
  import opened Wrappers
  import Seqs
  import Sorting

  datatype Weather = Normal | Flood | Drought | PestAttack | Recovering

  /** The `metadata` object of a point. It is a heap object because the source
      shares it between copies of a point and writes through the shared reference. */
  class WeatherMetadata {
    var cloudCover: real
    var temperature: real
    var rainfall: real

    constructor (cloudCover: real, temperature: real, rainfall: real)
      ensures this.cloudCover == cloudCover && this.temperature == temperature && this.rainfall == rainfall
    {
      this.cloudCover := cloudCover;
      this.temperature := temperature;
      this.rainfall := rainfall;
    }
  }

  /** One reading; `timestamp` is a day number. */
  datatype NdviPoint = NdviPoint(farmId: int, timestamp: int, ndvi: real, weatherCondition: Weather, metadata: WeatherMetadata)

  function OldestKey(p: NdviPoint): int { p.timestamp }

  function NewestKey(p: NdviPoint): int { -p.timestamp }

  ghost predicate OldestFirst(s: seq<NdviPoint>) {
    forall i, j :: 0 <= i < j < |s| ==> s[i].timestamp <= s[j].timestamp
  }

  /** The comparator `(a, b) => a.timestamp - b.timestamp` under a stable sort. */
  function SortOldestFirst(s: seq<NdviPoint>): (r: seq<NdviPoint>)
    ensures |r| == |s| && multiset(r) == multiset(s)
    ensures OldestFirst(r)
  {
    var r := Sorting.Sort(s, OldestKey);
    assert forall i, j :: 0 <= i < j < |r| ==> OldestKey(r[i]) <= OldestKey(r[j]);
    r
  }

  /** The comparator `(a, b) => b.timestamp - a.timestamp` under a stable sort. */
  function SortNewestFirst(s: seq<NdviPoint>): (r: seq<NdviPoint>)
    ensures |r| == |s| && multiset(r) == multiset(s)
    ensures forall i, j :: 0 <= i < j < |r| ==> r[i].timestamp >= r[j].timestamp
    ensures forall p | p in r :: p in s
    ensures forall p | p in s :: p in r
  {
    var r := Sorting.Sort(s, NewestKey);
    assert forall i, j :: 0 <= i < j < |r| ==> NewestKey(r[i]) <= NewestKey(r[j]);
    assert forall p | p in r :: p in multiset(s);
    assert forall p | p in s :: p in multiset(r);
    r
  }

  /** `new Set(points.map(d => d.farmId))`. */
  function FarmIdsOf(s: seq<NdviPoint>): set<int> {
    set p | p in s :: p.farmId
  }

  /** The points of farms outside `ids`: the store after the first step of `storeNDVIData`. */
  function WithoutFarms(s: seq<NdviPoint>, ids: set<int>): (r: seq<NdviPoint>)
    ensures forall p | p in multiset(s) :: multiset(r)[p] == if p.farmId !in ids then multiset(s)[p] else 0
    ensures multiset(r) <= multiset(s)
    ensures forall p | p in r :: p in s && p.farmId !in ids
  {
    Seqs.Filter(s, (p: NdviPoint) => p.farmId !in ids)
  }

  /** The points of one farm since day `cutoff`. */
  function FarmPointsSince(s: seq<NdviPoint>, farmId: int, cutoff: int): (r: seq<NdviPoint>)
    ensures forall p | p in multiset(s) :: multiset(r)[p] == if p.farmId == farmId && p.timestamp >= cutoff then multiset(s)[p] else 0
    ensures multiset(r) <= multiset(s)
    ensures forall p | p in r :: p in s && p.farmId == farmId && p.timestamp >= cutoff
  {
    Seqs.Filter(s, (p: NdviPoint) => p.farmId == farmId && p.timestamp >= cutoff)
  }

  function FarmPoints(s: seq<NdviPoint>, farmId: int): (r: seq<NdviPoint>)
    ensures forall p | p in r :: p in s && p.farmId == farmId
    ensures forall p | p in s && p.farmId == farmId :: p in r
  {
    Seqs.Filter(s, (p: NdviPoint) => p.farmId == farmId)
  }

  /** The farm's first point, in store order, among its latest ones. */
  function LatestOf(s: seq<NdviPoint>, farmId: int): (r: Option<NdviPoint>)
    ensures r.None? <==> forall p | p in s :: p.farmId != farmId
    ensures r.Some? ==> r.value in s && r.value.farmId == farmId
    ensures r.Some? ==> forall p | p in s && p.farmId == farmId :: p.timestamp <= r.value.timestamp
  {
    if s == [] then None
    else
      var rest := LatestOf(s[1..], farmId);
      assert forall p | p in s :: p == s[0] || p in s[1..];
      if s[0].farmId == farmId && (rest.None? || rest.value.timestamp <= s[0].timestamp) then Some(s[0]) else rest
  }

  /** `getLatestNDVI`'s own computation: the head of the farm's points sorted
      newest first by a stable sort is `LatestOf`. */
  lemma {:induction false} LatestOfIsSortHead(s: seq<NdviPoint>, farmId: int)
    ensures var sorted := SortNewestFirst(FarmPoints(s, farmId));
      LatestOf(s, farmId) == if |sorted| > 0 then Some(sorted[0]) else None
  {
    var farmPoints := FarmPoints(s, farmId);
    if farmPoints != [] {
      Sorting.SortHead(farmPoints, NewestKey);
    }
    LatestOfIsFirstMin(s, farmId);
  }

  lemma {:induction false} LatestOfIsFirstMin(s: seq<NdviPoint>, farmId: int)
    ensures var farmPoints := FarmPoints(s, farmId);
      LatestOf(s, farmId) == if farmPoints == [] then None else Some(Sorting.FirstMin(farmPoints, NewestKey))
  {
    if s != [] {
      LatestOfIsFirstMin(s[1..], farmId);
      var rest := FarmPoints(s[1..], farmId);
      assert FarmPoints(s, farmId) == if s[0].farmId == farmId then [s[0]] + rest else rest;
      if s[0].farmId == farmId && rest != [] {
        assert ([s[0]] + rest)[1..] == rest;
      }
    }
  }

  /** Position `k` holds farm `f`'s latest point, and no earlier point of `f` is as recent:
      the point `getAllCurrentNDVI` keeps for `f`, since it replaces only on a strictly later time. */
  ghost predicate FirstLatestAt(s: seq<NdviPoint>, f: int, k: int) {
    && 0 <= k < |s| && s[k].farmId == f
    && (forall j :: 0 <= j < |s| && s[j].farmId == f ==> s[j].timestamp <= s[k].timestamp)
    && (forall j :: 0 <= j < k && s[j].farmId == f ==> s[j].timestamp < s[k].timestamp)
  }

  /** The earliest timestamp (`Math.min` over the store). */
  function MinTimestamp(s: seq<NdviPoint>): (t: int)
    requires s != []
    ensures exists i :: 0 <= i < |s| && s[i].timestamp == t
    ensures forall i :: 0 <= i < |s| ==> t <= s[i].timestamp
  {
    if |s| == 1 then s[0].timestamp
    else
      var m := MinTimestamp(s[1..]);
      assert forall i :: 1 <= i < |s| ==> s[i] == s[1..][i - 1];
      if s[0].timestamp <= m then s[0].timestamp else m
  }

  /** The latest timestamp (`Math.max` over the store). */
  function MaxTimestamp(s: seq<NdviPoint>): (t: int)
    requires s != []
    ensures exists i :: 0 <= i < |s| && s[i].timestamp == t
    ensures forall i :: 0 <= i < |s| ==> s[i].timestamp <= t
  {
    if |s| == 1 then s[0].timestamp
    else
      var m := MaxTimestamp(s[1..]);
      assert forall i :: 1 <= i < |s| ==> s[i] == s[1..][i - 1];
      if s[0].timestamp >= m then s[0].timestamp else m
  }

  /** There are never more farms tracked than points stored. */
  lemma {:induction false} FarmsTrackedBounded(s: seq<NdviPoint>)
    ensures |FarmIdsOf(s)| <= |s|
  {
    if s != [] {
      var init := s[..|s| - 1];
      FarmsTrackedBounded(init);
      assert s == init + [s[|s| - 1]];
      assert FarmIdsOf(s) == FarmIdsOf(init) + {s[|s| - 1].farmId};
    }
  }

  lemma ExtendOtherFarm(s: seq<NdviPoint>, p: NdviPoint, f: int, k: int)
    requires FirstLatestAt(s, f, k) && p.farmId != f
    ensures FirstLatestAt(s + [p], f, k)
  {
  }

  lemma ExtendKeepLatest(s: seq<NdviPoint>, p: NdviPoint, k: int)
    requires FirstLatestAt(s, p.farmId, k) && p.timestamp <= s[k].timestamp
    ensures FirstLatestAt(s + [p], p.farmId, k)
  {
  }

  lemma ExtendNewLatest(s: seq<NdviPoint>, p: NdviPoint, k: int)
    requires FirstLatestAt(s, p.farmId, k) && p.timestamp > s[k].timestamp
    ensures FirstLatestAt(s + [p], p.farmId, |s|)
  {
  }

  lemma ExtendFirstOfFarm(s: seq<NdviPoint>, p: NdviPoint)
    requires p.farmId !in FarmIdsOf(s)
    ensures FirstLatestAt(s + [p], p.farmId, |s|)
  {
    forall j | 0 <= j < |s| ensures s[j].farmId != p.farmId {
      assert s[j] in s;
    }
  }

  /** `latest` maps each farm of `s` to its latest point, found at position `at[f]`. */
  ghost predicate Tracks(s: seq<NdviPoint>, latest: map<int, NdviPoint>, at: map<int, nat>) {
    && latest.Keys == at.Keys == FarmIdsOf(s)
    && forall f | f in at :: FirstLatestAt(s, f, at[f]) && s[at[f]] == latest[f]
  }

  /** One more point: it becomes its farm's entry when the farm is new or the point is strictly later. */
  lemma TracksExtend(s: seq<NdviPoint>, p: NdviPoint, latest: map<int, NdviPoint>, at: map<int, nat>)
    requires Tracks(s, latest, at)
    ensures p.farmId !in latest || p.timestamp > latest[p.farmId].timestamp ==>
      Tracks(s + [p], latest[p.farmId := p], at[p.farmId := |s|])
    ensures p.farmId in latest && p.timestamp <= latest[p.farmId].timestamp ==> Tracks(s + [p], latest, at)
  {
    assert FarmIdsOf(s + [p]) == FarmIdsOf(s) + {p.farmId};
    forall f | f in at && f != p.farmId ensures FirstLatestAt(s + [p], f, at[f]) {
      ExtendOtherFarm(s, p, f, at[f]);
    }
    if p.farmId !in latest {
      ExtendFirstOfFarm(s, p);
    } else if p.timestamp > latest[p.farmId].timestamp {
      ExtendNewLatest(s, p, at[p.farmId]);
    } else {
      ExtendKeepLatest(s, p, at[p.farmId]);
    }
  }

  datatype NdviStats = NdviStats(totalDataPoints: nat, farmsTracked: nat, oldest: Option<int>, newest: Option<int>)

  class NdviStore {
    var points: seq<NdviPoint>

    /** The store is kept in ascending timestamp order. */
    ghost predicate Valid()
      reads this
    {
      OldestFirst(points)
    }

    constructor ()
      ensures Valid() && points == []
    {
      points := [];
    }

    /** `storeNDVIData`: every farm present in the batch has its old points
        replaced by the batch's; the store is then re-sorted by timestamp. */
    method StoreNdviData(batch: seq<NdviPoint>) returns (count: nat)
      requires Valid()
      modifies this
      ensures Valid()
      ensures count == |batch|
      ensures points == SortOldestFirst(WithoutFarms(old(points), FarmIdsOf(batch)) + batch)
      ensures forall p | p in multiset(old(points)) && p.farmId !in FarmIdsOf(batch) ::
        multiset(points)[p] == multiset(old(points))[p] + multiset(batch)[p]
      ensures forall p | p in multiset(points) && p.farmId in FarmIdsOf(batch) :: multiset(points)[p] == multiset(batch)[p]
      ensures forall p | p in batch :: p in points
    {
      var farmIds := FarmIdsOf(batch);
      points := WithoutFarms(points, farmIds);
      points := points + batch;
      points := SortOldestFirst(points);
      count := |batch|;
    }

    /** `getNDVIHistory(farmId, days)` on day `today`: the farm's points from
        `today - days` on, oldest first. */
    function GetNdviHistory(farmId: int, days: int, today: int): (r: seq<NdviPoint>)
      reads this
      ensures OldestFirst(r)
      ensures forall p | p in multiset(points) ::
        multiset(r)[p] == if p.farmId == farmId && p.timestamp >= today - days then multiset(points)[p] else 0
      ensures forall p | p in r :: p in points && p.farmId == farmId && p.timestamp >= today - days
    {
      var r := SortOldestFirst(FarmPointsSince(points, farmId, today - days));
      assert forall p | p in r :: p in multiset(FarmPointsSince(points, farmId, today - days));
      r
    }

    /** `getLatestNDVI(farmId)`: null exactly when the farm has no points. */
    function GetLatestNdvi(farmId: int): (r: Option<NdviPoint>)
      reads this
      ensures r.None? <==> forall p | p in points :: p.farmId != farmId
      ensures r.Some? ==> r.value in points && r.value.farmId == farmId
      ensures r.Some? ==> forall p | p in points && p.farmId == farmId :: p.timestamp <= r.value.timestamp
    {
      LatestOf(points, farmId)
    }

    /** `getAllCurrentNDVI`: one point per farm in the store, its latest, the
        first-seen one on a tie. The source returns the map's values. */
    method GetAllCurrentNdvi() returns (latest: map<int, NdviPoint>)
      ensures latest.Keys == FarmIdsOf(points)
      ensures forall f | f in latest :: exists k :: FirstLatestAt(points, f, k) && points[k] == latest[f]
    {
      latest := map[];
      ghost var at: map<int, nat> := map[];
      var i := 0;
      while i < |points|
        invariant 0 <= i <= |points|
        invariant Tracks(points[..i], latest, at)
      {
        var p := points[i];
        assert points[..i + 1] == points[..i] + [p];
        TracksExtend(points[..i], p, latest, at);
        if p.farmId !in latest || p.timestamp > latest[p.farmId].timestamp {
          latest := latest[p.farmId := p];
          at := at[p.farmId := i];
        }
        i := i + 1;
      }
      assert points[..i] == points;
    }

    /** `clearNDVIData`. */
    method ClearNdviData()
      modifies this
      ensures Valid() && points == []
    {
      points := [];
    }

    /** `getNDVIStats`: size, number of farms and date range of the store. */
    function GetNdviStats(): (r: NdviStats)
      reads this
      ensures r.totalDataPoints == |points| && r.farmsTracked == |FarmIdsOf(points)|
      ensures r.farmsTracked <= r.totalDataPoints
      ensures r.oldest.None? <==> points == []
      ensures r.newest.None? <==> points == []
      ensures r.oldest.Some? ==> forall i :: 0 <= i < |points| ==> r.oldest.value <= points[i].timestamp
      ensures r.newest.Some? ==> forall i :: 0 <= i < |points| ==> points[i].timestamp <= r.newest.value
      ensures r.oldest.Some? ==> exists i :: 0 <= i < |points| && points[i].timestamp == r.oldest.value
      ensures r.newest.Some? ==> exists i :: 0 <= i < |points| && points[i].timestamp == r.newest.value
    {
      FarmsTrackedBounded(points);
      NdviStats(|points|, |FarmIdsOf(points)|,
                if |points| > 0 then Some(MinTimestamp(points)) else None,
                if |points| > 0 then Some(MaxTimestamp(points)) else None)
    }
  }
}
