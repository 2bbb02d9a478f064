/** The simulated satellite feed (services/ndviGenerator.js): a healthy growth
    curve, a daily series around it, disaster windows written into a series,
    and the health assessment of one reading against a baseline.
    `Math.random()` is replaced by draws in [0, 1) supplied by the caller, and
    dates are day numbers. */
module NdviGenerator {
  import opened NdviData
  import Severities
  import Seqs
  import Farms

  function RealMax(a: real, b: real): real { if a >= b then a else b }

  function RealMin(a: real, b: real): real { if a <= b then a else b }

  function RealAbs(a: real): real { if a >= 0.0 then a else -a }

  /** NDVI of bare soil and of dense vegetation: the range of the generator. */
  const Floor: real := 0.2
  const Ceiling: real := 0.9

  /** Scaling a non-negative amount by a fraction in [0, 1] keeps it between 0 and itself. */
  lemma ScaleBelow(a: real, t: real)
    requires 0.0 <= a && 0.0 <= t <= 1.0
    ensures 0.0 <= a * t <= a
  {
    assert a * (1.0 - t) >= 0.0;
  }

  // ---------------------------------------------------------------------------
  // Growth curve

  /** `calculateHealthyNDVI`: germination, vegetative stage, rapid growth up to
      the baseline, a plateau at the baseline, maturity and post-harvest. */
  function HealthyNdvi(daysSinceSowing: int, baseline: real): (r: real)
    ensures r <= RealMax(baseline, 0.6)
  {
    var d := daysSinceSowing as real;
    if daysSinceSowing < 0 then 0.2
    else if daysSinceSowing < 15 then 0.2 + 0.1 * (d / 15.0)
    else if daysSinceSowing < 30 then 0.3 + 0.3 * ((d - 15.0) / 15.0)
    else if daysSinceSowing < 60 then
      var t := (d - 30.0) / 30.0;
      ScaleBelow(RealAbs(baseline - 0.6), t);
      0.6 + (baseline - 0.6) * t
    else if daysSinceSowing < 90 then baseline
    else if daysSinceSowing < 120 then baseline - 0.2 * ((d - 90.0) / 30.0)
    else 0.3
  }

  /** The stage boundaries of the curve: bare soil before sowing, 0.3 at the
      end of germination, 0.6 at the end of the vegetative stage, the baseline
      through flowering, and 0.3 after harvest. */
  lemma GrowthCurveStages(baseline: real)
    ensures forall d :: d < 0 ==> HealthyNdvi(d, baseline) == 0.2
    ensures HealthyNdvi(0, baseline) == 0.2
    ensures HealthyNdvi(15, baseline) == 0.3
    ensures HealthyNdvi(30, baseline) == 0.6
    ensures forall d :: 60 <= d < 90 ==> HealthyNdvi(d, baseline) == baseline
    ensures forall d :: 120 <= d ==> HealthyNdvi(d, baseline) == 0.3
  {
  }

  /** Up to harvest the curve has no jumps: from one day to the next it moves by
      at most the steepest of its slopes. */
  lemma GrowthCurveStep(d: int, baseline: real)
    requires d + 1 < 120
    ensures RealAbs(HealthyNdvi(d + 1, baseline) - HealthyNdvi(d, baseline)) <= 0.02 + RealAbs(baseline - 0.6) / 30.0
  {
    var x := d as real;
    if 30 <= d < 59 {
      var t := (x - 30.0) / 30.0;
      assert ((x + 1.0) - 30.0) / 30.0 == t + 1.0 / 30.0;
      assert (baseline - 0.6) * (t + 1.0 / 30.0) == (baseline - 0.6) * t + (baseline - 0.6) / 30.0;
    } else if d == 59 {
      assert (baseline - 0.6) * (29.0 / 30.0) == (baseline - 0.6) - (baseline - 0.6) / 30.0;
    }
  }

  /** Between days 30 and 60 the curve climbs from 0.6 towards the baseline. */
  lemma VegetativeStage(d: int, baseline: real)
    requires 30 <= d < 60 && 0.6 <= baseline
    ensures 0.6 <= HealthyNdvi(d, baseline) <= baseline
  {
    var t := (d as real - 30.0) / 30.0;
    assert 0.0 <= t < 1.0;
    ScaleBelow(baseline - 0.6, t);
  }

  /** For a baseline of at least 0.6 (every farm of the data set has one) the
      curve stays between bare soil and the baseline. */
  lemma GrowthCurveRange(d: int, baseline: real)
    requires 0.6 <= baseline
    ensures 0.2 <= HealthyNdvi(d, baseline) <= baseline
  {
    var x := d as real;
    if d < 0 {
    } else if d < 15 {
      assert 0.0 <= x / 15.0 < 1.0;
    } else if d < 30 {
      assert 0.0 <= (x - 15.0) / 15.0 < 1.0;
    } else if d < 60 {
      VegetativeStage(d, baseline);
    } else if 90 <= d < 120 {
      assert 0.0 <= (x - 90.0) / 30.0 < 1.0;
    }
  }

  // ---------------------------------------------------------------------------
  // Daily series

  /** `Math.max(0.2, Math.min(0.9, x))`. */
  function ClampNdvi(x: real): (r: real)
    ensures Floor <= r <= Ceiling
    ensures Floor <= x <= Ceiling ==> r == x
    ensures x < Floor ==> r == Floor
    ensures Ceiling < x ==> r == Ceiling
  {
    RealMax(0.2, RealMin(0.9, x))
  }

  /** The random numbers drawn for one day of the series, each in [0, 1). */
  datatype DayDraws = DayDraws(variation: real, cloudCover: real, temperature: real, rainfall: real)

  predicate IsUnit(x: real) { 0.0 <= x < 1.0 }

  predicate IsUnitDraws(w: DayDraws) {
    IsUnit(w.variation) && IsUnit(w.cloudCover) && IsUnit(w.temperature) && IsUnit(w.rainfall)
  }

  /** The points of a series `daysHistory` days back: one per day, today included. */
  function SeriesLength(daysHistory: int): nat {
    if daysHistory < 0 then 0 else daysHistory + 1
  }

  /** The reading of `farm` on `day` for the variation draw `v`: the curve plus
      a noise of at most 0.05 either way, clamped to the generator's range. */
  function GeneratedNdvi(farm: Farms.Farm, day: int, v: real): real {
    ClampNdvi(HealthyNdvi(day - farm.sowingDay, farm.baselineNdvi) + (v - 0.5) * 0.1)
  }

  /** A generated reading is within 0.05 of the clamped healthy curve. */
  lemma GeneratedNdviNearCurve(farm: Farms.Farm, day: int, v: real)
    requires IsUnit(v)
    ensures RealAbs(GeneratedNdvi(farm, day, v) - ClampNdvi(HealthyNdvi(day - farm.sowingDay, farm.baselineNdvi))) <= 0.05
  {
  }

  /** `generateNDVITimeSeries(farm, daysHistory)` on day `today`: one point per
      day from `today - daysHistory` up to `today`, oldest first, each with a
      metadata object of its own. */
  method GenerateNdviTimeSeries(farm: Farms.Farm, daysHistory: int, today: int, draws: seq<DayDraws>)
    returns (series: seq<NdviPoint>)
    requires |draws| == SeriesLength(daysHistory)
    requires forall k :: 0 <= k < |draws| ==> IsUnitDraws(draws[k])
    ensures |series| == SeriesLength(daysHistory)
    ensures forall k :: 0 <= k < |series| ==>
      series[k].farmId == farm.id && series[k].timestamp == today - daysHistory + k &&
      series[k].weatherCondition == Normal &&
      series[k].ndvi == GeneratedNdvi(farm, today - daysHistory + k, draws[k].variation)
    ensures forall k :: 0 <= k < |series| ==> Floor <= series[k].ndvi <= Ceiling
    ensures forall k :: 0 <= k < |series| ==>
      fresh(series[k].metadata) &&
      series[k].metadata.cloudCover == draws[k].cloudCover * 20.0 &&
      series[k].metadata.temperature == 25.0 + draws[k].temperature * 10.0 &&
      series[k].metadata.rainfall == draws[k].rainfall * 5.0
    ensures forall j, k :: 0 <= j < k < |series| ==> series[j].metadata != series[k].metadata
    ensures forall j, k :: 0 <= j < k < |series| ==> series[j].timestamp < series[k].timestamp
  {
    series := [];
    var i := daysHistory;
    while i >= 0
      invariant if daysHistory < 0 then i == daysHistory else -1 <= i <= daysHistory
      invariant |series| == daysHistory - i
      invariant forall k :: 0 <= k < |series| ==>
        series[k].farmId == farm.id && series[k].timestamp == today - daysHistory + k &&
        series[k].weatherCondition == Normal &&
        series[k].ndvi == GeneratedNdvi(farm, today - daysHistory + k, draws[k].variation)
      invariant forall k :: 0 <= k < |series| ==>
        fresh(series[k].metadata) &&
        series[k].metadata.cloudCover == draws[k].cloudCover * 20.0 &&
        series[k].metadata.temperature == 25.0 + draws[k].temperature * 10.0 &&
        series[k].metadata.rainfall == draws[k].rainfall * 5.0
      invariant forall j, k :: 0 <= j < k < |series| ==> series[j].metadata != series[k].metadata
    {
      var w := draws[daysHistory - i];
      var date := today - i;
      var ndvi := ClampNdvi(HealthyNdvi(date - farm.sowingDay, farm.baselineNdvi) + (w.variation - 0.5) * 0.1);
      var metadata := new WeatherMetadata(w.cloudCover * 20.0, 25.0 + w.temperature * 10.0, w.rainfall * 5.0);
      series := series + [NdviPoint(farm.id, date, ndvi, Normal, metadata)];
      i := i - 1;
    }
  }

  // ---------------------------------------------------------------------------
  // Disaster injection

  /** The `type` of a disaster; any other string leaves the window's points as they are. */
  datatype DisasterKindValue = FloodEvent | DroughtEvent | PestEvent | UnknownEvent(name: string)

  /** The three strings the injection's `switch` acts on. */
  predicate IsKindName(name: string) {
    name == "flood" || name == "drought" || name == "pest"
  }

  /** A disaster `type` string: one of the three names is always its kind,
      never an `UnknownEvent`, so each string has exactly one representation. */
  type DisasterKind = k: DisasterKindValue | !k.UnknownEvent? || !IsKindName(k.name) witness FloodEvent

  /** The string the source's `type` field holds. */
  function KindName(k: DisasterKind): (name: string)
    ensures k.UnknownEvent? <==> !IsKindName(name)
  {
    match k
    case FloodEvent => "flood"
    case DroughtEvent => "drought"
    case PestEvent => "pest"
    case UnknownEvent(name) => name
  }

  /** A `type` string as the caller passes it: the `switch`'s three cases, or
      an unknown kind that changes nothing. */
  function ParseDisasterKind(name: string): (k: DisasterKind)
    ensures KindName(k) == name
    ensures k.UnknownEvent? <==> !IsKindName(name)
  {
    if name == "flood" then FloodEvent
    else if name == "drought" then DroughtEvent
    else if name == "pest" then PestEvent
    else UnknownEvent(name)
  }

  /** Kinds are equal exactly when their strings are, as the `switch` compares them. */
  lemma KindNameInjective(a: DisasterKind, b: DisasterKind)
    ensures KindName(a) == KindName(b) <==> a == b
  {
    if KindName(a) == KindName(b) {
      assert ParseDisasterKind(KindName(a)) == a;
      assert ParseDisasterKind(KindName(b)) == b;
    }
  }

  /** `startDay` counts back from the newest point (0 = the newest). */
  datatype Disaster = Disaster(kind: DisasterKind, startDay: int, duration: int, severity: real)

  const RecoveryDays: int := 15

  /** `startIndex`: the first point of the disaster window. */
  function WindowStart(len: nat, d: Disaster): (r: nat)
    ensures r >= len - d.startDay - d.duration
    ensures d.startDay + d.duration >= 0 ==> r <= len
  {
    if len - d.startDay - d.duration <= 0 then 0 else len - d.startDay - d.duration
  }

  /** `endIndex`: one past the last point of the window. It is negative when the
      disaster starts before the series does. */
  function WindowEnd(len: nat, d: Disaster): (r: int)
    ensures r <= len && r <= len - d.startDay && (r == len || r == len - d.startDay)
    ensures r < 0 <==> d.startDay > len
  {
    Seqs.Min(len, len - d.startDay)
  }

  predicate InWindow(len: nat, d: Disaster, i: int) {
    WindowStart(len, d) <= i < WindowEnd(len, d)
  }

  /** A point of the window lies in the series, and a nonempty window has a
      positive duration, so the drought progress is well defined. */
  lemma WindowInSeries(len: nat, d: Disaster, i: int)
    requires InWindow(len, d, i)
    ensures 0 <= i < len && d.duration > 0
    ensures 0 <= i - WindowStart(len, d) < d.duration
  {
  }

  /** The reading at position `dayInDisaster` of the window after the disaster. */
  function DisasterNdvi(ndvi: real, d: Disaster, dayInDisaster: int): (r: real)
    requires 0 < d.duration
    ensures !d.kind.UnknownEvent? ==> r >= 0.2
    ensures d.kind.PestEvent? ==> r >= 0.3
    ensures d.kind.UnknownEvent? ==> r == ndvi
  {
    match d.kind
    case FloodEvent => RealMax(0.2, ndvi - d.severity * 0.5)
    case DroughtEvent => RealMax(0.2, ndvi - d.severity * 0.4 * (dayInDisaster as real / d.duration as real))
    case PestEvent => RealMax(0.3, ndvi - d.severity * 0.3)
    case UnknownEvent(_) => ndvi
  }

  function DisasterWeather(w: Weather, k: DisasterKind): Weather {
    match k
    case FloodEvent => Flood
    case DroughtEvent => Drought
    case PestEvent => PestAttack
    case UnknownEvent(_) => w
  }

  /** A disaster never raises a reading above its kind's floor, never raises
      one that is at the floor or above, lowers it by at most its full impact,
      and leaves it at the floor or above. */
  lemma DisasterNdviBounds(ndvi: real, d: Disaster, dayInDisaster: int)
    requires 0 < d.duration && 0 <= dayInDisaster < d.duration && 0.0 <= d.severity
    ensures DisasterNdvi(ndvi, d, dayInDisaster) <= RealMax(ndvi, 0.3)
    ensures d.kind.FloodEvent? ==> DisasterNdvi(ndvi, d, dayInDisaster) >= RealMax(0.2, ndvi - 0.5 * d.severity)
    ensures d.kind.DroughtEvent? ==> DisasterNdvi(ndvi, d, dayInDisaster) >= RealMax(0.2, ndvi - 0.4 * d.severity)
    ensures d.kind.PestEvent? ==> DisasterNdvi(ndvi, d, dayInDisaster) >= RealMax(0.3, ndvi - 0.3 * d.severity)
    ensures !d.kind.UnknownEvent? ==> DisasterNdvi(ndvi, d, dayInDisaster) >= 0.2
    ensures d.kind.UnknownEvent? ==> DisasterNdvi(ndvi, d, dayInDisaster) == ndvi
    ensures ndvi >= (if d.kind.PestEvent? then 0.3 else 0.2) ==> DisasterNdvi(ndvi, d, dayInDisaster) <= ndvi
  {
    if d.kind.DroughtEvent? {
      DroughtImpactBounded(d.severity, dayInDisaster, d.duration);
      var impact := d.severity * 0.4 * (dayInDisaster as real / d.duration as real);
      assert 0.0 <= impact <= 0.4 * d.severity;
      assert DisasterNdvi(ndvi, d, dayInDisaster) == RealMax(0.2, ndvi - impact);
    }
  }

  /** The drought impact grows from nothing to at most 40 % of the severity. */
  lemma DroughtImpactBounded(severity: real, dayInDisaster: int, duration: int)
    requires 0 <= dayInDisaster < duration && 0.0 <= severity
    ensures 0.0 <= severity * 0.4 * (dayInDisaster as real / duration as real) <= 0.4 * severity
  {
    var progress := dayInDisaster as real / duration as real;
    assert 0.0 <= progress < 1.0;
    ScaleBelow(severity * 0.4, progress);
  }

  /** The first point of the recovery tail as the source computes it: `endIndex`. */
  function TailStartAsWritten(len: nat, d: Disaster): int {
    WindowEnd(len, d)
  }

  /** One past the last point of the recovery tail. */
  function TailEnd(len: nat, d: Disaster): int {
    Seqs.Min(WindowEnd(len, d) + RecoveryDays, len)
  }

  /** The source's recovery loop reads a position before the series (a point
      that does not exist, whose `ndvi` it then reads). */
  predicate TailReadsBeforeSeriesAsWritten(len: nat, d: Disaster) {
    TailStartAsWritten(len, d) < TailEnd(len, d) && TailStartAsWritten(len, d) < 0
  }

  /** The source's recovery loop fails exactly when the disaster starts further
      back than the series reaches. */
  lemma TailAsWrittenFailsIff(len: nat, d: Disaster)
    ensures TailReadsBeforeSeriesAsWritten(len, d) <==> d.startDay > len
  {
  }

  /** A 61-day series with a disaster started 70 days back: the source's tail
      loop starts at position -9. */
  lemma TailAsWrittenCounterexample()
    ensures TailStartAsWritten(61, Disaster(FloodEvent, 70, 5, 0.8)) == -9
    ensures TailReadsBeforeSeriesAsWritten(61, Disaster(FloodEvent, 70, 5, 0.8))
  {
  }

  /** The corrected tail starts at `endIndex` clipped to the series. */
  function TailStart(len: nat, d: Disaster): nat {
    if WindowEnd(len, d) <= 0 then 0 else WindowEnd(len, d)
  }

  predicate InTail(len: nat, d: Disaster, i: int) {
    TailStart(len, d) <= i < TailEnd(len, d)
  }

  /** The corrected tail reads only points of the series, follows the window
      without overlapping it, agrees with the source wherever the source does
      not fail, and is at most 15 points long. */
  lemma TailInSeries(len: nat, d: Disaster, i: int)
    ensures InTail(len, d, i) ==> 0 <= i < len && !InWindow(len, d, i)
    ensures InTail(len, d, i) ==> 0 <= i - WindowEnd(len, d) < RecoveryDays
    ensures d.startDay <= len ==> TailStart(len, d) == TailStartAsWritten(len, d)
    ensures TailEnd(len, d) - TailStart(len, d) <= RecoveryDays
  {
  }

  /** The recovery reading `i - endIndex` days after the window. */
  function RecoveryNdvi(ndvi: real, d: Disaster, daysAfter: int): (r: real)
    ensures r <= 0.85
    ensures daysAfter == 0 ==> r == RealMin(0.85, ndvi)
    ensures 0 <= daysAfter && 0.0 <= d.severity ==> r >= RealMin(0.85, ndvi)
  {
    var progress := daysAfter as real / RecoveryDays as real;
    assert 0 <= daysAfter && 0.0 <= d.severity ==> 0.0 <= d.severity * 0.2 * progress;
    RealMin(0.85, ndvi + d.severity * 0.2 * progress)
  }

  /** The point at position `i` of `injectDisasterEvent(s, d)`, with the
      corrected tail. The metadata reference is the input point's. */
  function DisasterPoint(s: seq<NdviPoint>, d: Disaster, i: int): (r: NdviPoint)
    requires 0 <= i < |s|
    ensures r.farmId == s[i].farmId && r.timestamp == s[i].timestamp && r.metadata == s[i].metadata
    ensures !InWindow(|s|, d, i) && !InTail(|s|, d, i) ==> r == s[i]
    ensures InWindow(|s|, d, i) ==> r.ndvi == DisasterNdvi(s[i].ndvi, d, i - WindowStart(|s|, d))
    ensures InTail(|s|, d, i) ==> r.ndvi == RecoveryNdvi(s[i].ndvi, d, i - WindowEnd(|s|, d)) && r.weatherCondition == Recovering
  {
    var p := s[i];
    if InWindow(|s|, d, i) then
      WindowInSeries(|s|, d, i);
      p.(ndvi := DisasterNdvi(p.ndvi, d, i - WindowStart(|s|, d)), weatherCondition := DisasterWeather(p.weatherCondition, d.kind))
    else if InTail(|s|, d, i) then
      p.(ndvi := RecoveryNdvi(p.ndvi, d, i - WindowEnd(|s|, d)), weatherCondition := Recovering)
    else
      p
  }

  /** Outside the window and the tail a point is untouched; in either, only its
      reading and weather change; a tail reading is capped at 0.85 and never
      lowered by a non-negative severity, and the first tail point, zero days
      after the window, keeps its reading when it is at most 0.85. */
  lemma DisasterPointShape(s: seq<NdviPoint>, d: Disaster, i: int)
    requires 0 <= i < |s|
    ensures DisasterPoint(s, d, i).farmId == s[i].farmId
    ensures DisasterPoint(s, d, i).timestamp == s[i].timestamp
    ensures DisasterPoint(s, d, i).metadata == s[i].metadata
    ensures !InWindow(|s|, d, i) && !InTail(|s|, d, i) ==> DisasterPoint(s, d, i) == s[i]
    ensures InTail(|s|, d, i) ==> DisasterPoint(s, d, i).weatherCondition == Recovering
    ensures InTail(|s|, d, i) ==> DisasterPoint(s, d, i).ndvi <= 0.85
    ensures InTail(|s|, d, i) && 0.0 <= d.severity && s[i].ndvi <= 0.85 ==> DisasterPoint(s, d, i).ndvi >= s[i].ndvi
    ensures InTail(|s|, d, i) && i == WindowEnd(|s|, d) && s[i].ndvi <= 0.85 ==> DisasterPoint(s, d, i).ndvi == s[i].ndvi
  {
    if InTail(|s|, d, i) {
      TailInSeries(|s|, d, i);
      var progress := (i - WindowEnd(|s|, d)) as real / RecoveryDays as real;
      assert 0.0 <= progress;
      if 0.0 <= d.severity {
        assert 0.0 <= d.severity * 0.2 * progress;
      }
    }
  }

  /** The window's metadata objects, which the injection writes through. */
  function WindowMetadata(s: seq<NdviPoint>, d: Disaster): set<WeatherMetadata> {
    set i | 0 <= i < |s| && InWindow(|s|, d, i) :: s[i].metadata
  }

  /** The first loop of `injectDisasterEvent`: each point of the window gets
      the disaster's reading and weather, and a flood or a drought rewrites the
      point's (shared) metadata object. */
  method ApplyWindow(s: seq<NdviPoint>, d: Disaster, draws: seq<real>) returns (r: seq<NdviPoint>)
    requires |draws| == |s| && forall i :: 0 <= i < |draws| ==> IsUnit(draws[i])
    requires forall i, j :: 0 <= i < j < |s| && InWindow(|s|, d, i) && InWindow(|s|, d, j) ==> s[i].metadata != s[j].metadata
    modifies WindowMetadata(s, d)
    ensures |r| == |s|
    ensures forall i :: 0 <= i < |s| ==> r[i] == if InWindow(|s|, d, i) then DisasterPoint(s, d, i) else s[i]
    ensures forall i :: 0 <= i < |s| && InWindow(|s|, d, i) ==>
      var m := s[i].metadata;
      match d.kind
      case FloodEvent =>
        m.rainfall == 100.0 + draws[i] * 100.0 && m.temperature == old(m.temperature) && m.cloudCover == old(m.cloudCover)
      case DroughtEvent =>
        m.rainfall == 0.0 && m.temperature == 35.0 + draws[i] * 5.0 && m.cloudCover == old(m.cloudCover)
      case _ =>
        m.rainfall == old(m.rainfall) && m.temperature == old(m.temperature) && m.cloudCover == old(m.cloudCover)
  {
    r := s;
    var start := WindowStart(|s|, d);
    var end := WindowEnd(|s|, d);
    var i := start;
    while i < end
      invariant |r| == |s|
      invariant start <= i && (i <= end || i == start)
      invariant forall k :: 0 <= k < |s| && start <= k < i ==> r[k] == DisasterPoint(s, d, k)
      invariant forall k :: 0 <= k < |s| && !(start <= k < i) ==> r[k] == s[k]
      invariant forall k :: 0 <= k < |s| && InWindow(|s|, d, k) && k < i ==>
        var m := s[k].metadata;
        match d.kind
        case FloodEvent =>
          m.rainfall == 100.0 + draws[k] * 100.0 && m.temperature == old(m.temperature) && m.cloudCover == old(m.cloudCover)
        case DroughtEvent =>
          m.rainfall == 0.0 && m.temperature == 35.0 + draws[k] * 5.0 && m.cloudCover == old(m.cloudCover)
        case _ =>
          m.rainfall == old(m.rainfall) && m.temperature == old(m.temperature) && m.cloudCover == old(m.cloudCover)
      invariant forall k :: 0 <= k < |s| && InWindow(|s|, d, k) && i <= k ==>
        var m := s[k].metadata;
        m.rainfall == old(m.rainfall) && m.temperature == old(m.temperature) && m.cloudCover == old(m.cloudCover)
    {
      assert InWindow(|s|, d, i);
      WindowInSeries(|s|, d, i);
      var p := r[i];
      var m := p.metadata;
      assert m in WindowMetadata(s, d);
      match d.kind {
        case FloodEvent =>
          m.rainfall := 100.0 + draws[i] * 100.0;
        case DroughtEvent =>
          m.rainfall := 0.0;
          m.temperature := 35.0 + draws[i] * 5.0;
        case _ =>
      }
      p := p.(ndvi := DisasterNdvi(p.ndvi, d, i - start), weatherCondition := DisasterWeather(p.weatherCondition, d.kind));
      r := r[i := p];
      i := i + 1;
    }
    forall k | 0 <= k < |s| && InWindow(|s|, d, k) ensures start <= k < end {
      WindowInSeries(|s|, d, k);
    }
  }

  /** The second loop of `injectDisasterEvent`, with the corrected start: the
      points after the window recover towards their own reading. */
  method ApplyRecoveryTail(s: seq<NdviPoint>, d: Disaster, w: seq<NdviPoint>) returns (r: seq<NdviPoint>)
    requires |w| == |s|
    requires forall i :: 0 <= i < |s| ==> w[i] == if InWindow(|s|, d, i) then DisasterPoint(s, d, i) else s[i]
    ensures |r| == |s|
    ensures forall i :: 0 <= i < |s| ==> r[i] == DisasterPoint(s, d, i)
  {
    r := w;
    var end := WindowEnd(|s|, d);
    var j := TailStart(|s|, d);
    var tailEnd := TailEnd(|s|, d);
    while j < tailEnd
      invariant |r| == |s|
      invariant TailStart(|s|, d) <= j && (j <= tailEnd || j == TailStart(|s|, d))
      invariant forall k :: 0 <= k < |s| && !(TailStart(|s|, d) <= k < j) ==> r[k] == w[k]
      invariant forall k :: 0 <= k < |s| && TailStart(|s|, d) <= k < j ==> r[k] == DisasterPoint(s, d, k)
    {
      TailInSeries(|s|, d, j);
      r := r[j := r[j].(ndvi := RecoveryNdvi(r[j].ndvi, d, j - end), weatherCondition := Recovering)];
      j := j + 1;
    }
    forall k | 0 <= k < |s| ensures r[k] == DisasterPoint(s, d, k) {
      TailInSeries(|s|, d, k);
    }
  }

  /** `injectDisasterEvent(s, d)` with the corrected tail. The window's points
      are copied, but their metadata objects are shared with `s`: a flood or a
      drought rewrites the input's weather metadata. `draws[i]` is the random
      number drawn at position `i`. */
  method InjectDisasterEvent(s: seq<NdviPoint>, d: Disaster, draws: seq<real>) returns (r: seq<NdviPoint>)
    requires |draws| == |s| && forall i :: 0 <= i < |draws| ==> IsUnit(draws[i])
    requires forall i, j :: 0 <= i < j < |s| && InWindow(|s|, d, i) && InWindow(|s|, d, j) ==> s[i].metadata != s[j].metadata
    modifies WindowMetadata(s, d)
    ensures |r| == |s|
    ensures forall i :: 0 <= i < |s| ==> r[i] == DisasterPoint(s, d, i)
    ensures forall i :: 0 <= i < |s| && InWindow(|s|, d, i) ==>
      var m := s[i].metadata;
      match d.kind
      case FloodEvent =>
        m.rainfall == 100.0 + draws[i] * 100.0 && m.temperature == old(m.temperature) && m.cloudCover == old(m.cloudCover)
      case DroughtEvent =>
        m.rainfall == 0.0 && m.temperature == 35.0 + draws[i] * 5.0 && m.cloudCover == old(m.cloudCover)
      case _ =>
        m.rainfall == old(m.rainfall) && m.temperature == old(m.temperature) && m.cloudCover == old(m.cloudCover)
  {
    var w := ApplyWindow(s, d, draws);
    r := ApplyRecoveryTail(s, d, w);
  }

  // ---------------------------------------------------------------------------
  // Health assessment

  datatype HealthStatus = Healthy | Warning | Critical | Severe

  /** The text of `getHealthMessage`, by kind, with the drop it reports. */
  datatype HealthMessage = ExcellentHealth(drop: real) | MinorStress(drop: real) | SignificantStress(drop: real) | SevereDamage(drop: real)

  datatype Health = Health(
    status: HealthStatus,
    severity: Severities.Severity,
    color: string,
    currentNdvi: real,
    baselineNdvi: real,
    dropPercentage: real,
    message: HealthMessage)

  /** The drop of a reading below its baseline, in percent of the baseline. */
  function DropPercentage(current: real, baseline: real): (r: real)
    requires baseline != 0.0
    ensures r * baseline == (baseline - current) * 100.0
  {
    (baseline - current) / baseline * 100.0
  }

  /** `getHealthMessage(status, drop)`: one message kind per status. */
  function HealthMessageFor(status: HealthStatus, drop: real): (m: HealthMessage)
    ensures m.drop == drop
  {
    match status
    case Healthy => ExcellentHealth(drop)
    case Warning => MinorStress(drop)
    case Critical => SignificantStress(drop)
    case Severe => SevereDamage(drop)
  }

  /** Different statuses get different messages. */
  lemma HealthMessageInjective(s1: HealthStatus, s2: HealthStatus, drop: real)
    ensures HealthMessageFor(s1, drop) == HealthMessageFor(s2, drop) <==> s1 == s2
  {
  }

  /** The severity the assessor pairs with each status. */
  function StatusSeverity(status: HealthStatus): (r: Severities.Severity)
    ensures Severities.IsStandard(r)
  {
    match status
    case Healthy => Severities.Low
    case Warning => Severities.Medium
    case Critical => Severities.High
    case Severe => Severities.Critical
  }

  /** `assessNDVIHealth(current, baseline)`: the status bucket of the drop
      below baseline (under 10 %, 25 %, 50 %, and beyond), its severity and
      colour. A zero baseline is excluded: the source divides by it. */
  function AssessNdviHealth(current: real, baseline: real): (h: Health)
    requires baseline != 0.0
    ensures h.currentNdvi == current && h.baselineNdvi == baseline
    ensures h.dropPercentage == DropPercentage(current, baseline)
    ensures h.severity == StatusSeverity(h.status)
    ensures h.message == HealthMessageFor(h.status, h.dropPercentage)
    ensures h.status == Healthy <==> h.dropPercentage < 10.0
    ensures h.status == Severe <==> 50.0 <= h.dropPercentage
  {
    var drop := DropPercentage(current, baseline);
    var status := if drop < 10.0 then Healthy else if drop < 25.0 then Warning else if drop < 50.0 then Critical else Severe;
    var color := match status
      case Healthy => "#10b981"
      case Warning => "#f59e0b"
      case Critical => "#f97316"
      case Severe => "#ef4444";
    Health(status, StatusSeverity(status), color, current, baseline, drop, HealthMessageFor(status, drop))
  }

  /** For a positive baseline the buckets are bands of the reading relative to
      the baseline: above 90 %, above 75 %, above 50 %, and the rest. */
  lemma AssessBands(current: real, baseline: real)
    requires 0.0 < baseline
    ensures AssessNdviHealth(current, baseline).status == Healthy <==> current > 0.9 * baseline
    ensures AssessNdviHealth(current, baseline).status == Warning <==> 0.75 * baseline < current <= 0.9 * baseline
    ensures AssessNdviHealth(current, baseline).status == Critical <==> 0.5 * baseline < current <= 0.75 * baseline
    ensures AssessNdviHealth(current, baseline).status == Severe <==> current <= 0.5 * baseline
  {
    var drop := DropPercentage(current, baseline);
    assert drop * baseline == (baseline - current) * 100.0;
    DropBelow(drop, baseline, current, 10.0);
    DropBelow(drop, baseline, current, 25.0);
    DropBelow(drop, baseline, current, 50.0);
  }

  /** `drop < t` as a band of the reading, for a positive baseline. */
  lemma DropBelow(drop: real, baseline: real, current: real, t: real)
    requires 0.0 < baseline && drop * baseline == (baseline - current) * 100.0
    ensures drop < t <==> current > (1.0 - t / 100.0) * baseline
  {
    assert (1.0 - t / 100.0) * baseline == baseline - t * baseline / 100.0;
    if drop < t {
      assert drop * baseline < t * baseline;
    } else {
      assert drop * baseline >= t * baseline;
    }
  }

  /** The order of the statuses from healthy to severe. */
  function StatusRank(s: HealthStatus): nat {
    match s
    case Healthy => 0
    case Warning => 1
    case Critical => 2
    case Severe => 3
  }

  /** A lower reading against the same positive baseline is never assessed healthier. */
  lemma AssessMonotone(c1: real, c2: real, baseline: real)
    requires 0.0 < baseline && c1 <= c2
    ensures StatusRank(AssessNdviHealth(c1, baseline).status) >= StatusRank(AssessNdviHealth(c2, baseline).status)
  {
    AssessBands(c1, baseline);
    AssessBands(c2, baseline);
  }

  /** A healthy reading is above 80 % of a positive baseline, the level that
      auto-resolves the farm's alerts. */
  lemma HealthyAboveRecovery(current: real, baseline: real)
    requires 0.0 < baseline && AssessNdviHealth(current, baseline).status == Healthy
    ensures current >= 0.8 * baseline
  {
    AssessBands(current, baseline);
  }
}
