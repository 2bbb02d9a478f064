/** The monitoring service (services/ndviMonitor.js): it assesses each farm's
    latest reading, raises or refreshes alerts for stressed farms and
    auto-resolves the alerts of recovered ones. The farm list, the two stores
    and the current day are passed in. */
module NdviMonitor {
  import opened Wrappers
  import opened Severities
  import opened Alerts
  import opened NdviData
  import Farms
  import Seqs
  import Gen = NdviGenerator

  /** `mapHealthToSeverity`. Its `"medium"` fallback is unreachable: every
      status has an entry. */
  function MapHealthToSeverity(status: Gen.HealthStatus): (s: Severity)
    ensures IsStandard(s)
    ensures s == Low <==> status == Gen.Healthy
    ensures s == Critical <==> status == Gen.Severe
  {
    match status
    case Healthy => Low
    case Warning => Medium
    case Critical => High
    case Severe => Critical
  }

  /** The monitor's severity table is the one the assessor reports, so an
      alert's severity always agrees with the assessment behind it. */
  lemma SeverityTablesAgree(status: Gen.HealthStatus)
    ensures MapHealthToSeverity(status) == Gen.StatusSeverity(status)
  {
  }

  /** Different statuses are raised at different severities, so the store's
      de-duplication keeps one alert per farm and status. */
  lemma MapHealthToSeverityInjective(s1: Gen.HealthStatus, s2: Gen.HealthStatus)
    ensures MapHealthToSeverity(s1) == MapHealthToSeverity(s2) <==> s1 == s2
  {
  }

  /** `health.status` as the string stored in the alert's metadata. */
  function StatusName(status: Gen.HealthStatus): string {
    match status
    case Healthy => "healthy"
    case Warning => "warning"
    case Critical => "critical"
    case Severe => "severe"
  }

  /** `generateAlertMessage(farm, health)`: a text per stressed status naming
      the farmer, the crop and the drop, and a generic one otherwise. */
  function GenerateAlertMessage(farm: Farms.Farm, h: Gen.Health): (m: AlertMessage)
    ensures m.farmerName == farm.farmerName
    ensures m.SevereAlertMessage? <==> h.status == Gen.Severe
    ensures m.CriticalAlertMessage? <==> h.status == Gen.Critical
    ensures m.WarningAlertMessage? <==> h.status == Gen.Warning
    ensures m.HealthIssueMessage? <==> h.status == Gen.Healthy
    ensures (m.SevereAlertMessage? || m.CriticalAlertMessage? || m.WarningAlertMessage?) ==> m.crop == Farms.CropName(farm) && m.dropPercent == h.dropPercentage
  {
    var crop := Farms.CropName(farm);
    match h.status
    case Severe => SevereAlertMessage(farm.farmerName, crop, h.dropPercentage)
    case Critical => CriticalAlertMessage(farm.farmerName, crop, h.dropPercentage)
    case Warning => WarningAlertMessage(farm.farmerName, crop, h.dropPercentage)
    case Healthy => HealthIssueMessage(farm.farmerName)
  }

  /** The alert data `checkFarmHealth` hands to the store. Readings never carry
      a `disaster` or a `metadata.weatherCondition` field, so the cause is
      always absent and the weather always "unknown". */
  function MonitorAlertData(farm: Farms.Farm, reading: NdviPoint, h: Gen.Health): (r: AlertData)
    ensures r.farmId == farm.id && r.farmerName == farm.farmerName && r.alertType == "ndvi_drop"
    ensures IsStandard(r.severity) && r.severity == Gen.StatusSeverity(h.status)
    ensures r.currentNdvi == reading.ndvi && r.baselineNdvi == farm.baselineNdvi && r.dropPercentage == h.dropPercentage
    ensures r.estimatedCause.None? && r.metadata.MonitorDetails? && r.metadata.weatherCondition == "unknown"
  {
    SeverityTablesAgree(h.status);
    AlertData(farm.id, farm.farmerName, "ndvi_drop", MapHealthToSeverity(h.status),
              reading.ndvi, farm.baselineNdvi, h.dropPercentage, GenerateAlertMessage(farm, h), None,
              MonitorDetails(farm.cropType, farm.area, farm.insuranceValue, StatusName(h.status), "unknown"))
  }

  /** An alert raised by the monitor describes the farm, the reading and the
      assessment it came from. */
  lemma MonitorAlertDescribesAssessment(farm: Farms.Farm, reading: NdviPoint, id: AlertId, now: int)
    requires farm.baselineNdvi != 0.0
    ensures var h := Gen.AssessNdviHealth(reading.ndvi, farm.baselineNdvi);
      var a := NewAlert(id, MonitorAlertData(farm, reading, h), now);
      && a.farmId == farm.id && a.status == Active && a.alertType == "ndvi_drop"
      && a.currentNdvi == reading.ndvi && a.baselineNdvi == farm.baselineNdvi
      && a.dropPercentage == Gen.DropPercentage(reading.ndvi, farm.baselineNdvi)
      && a.severity == Gen.StatusSeverity(h.status)
      && (farm.baselineNdvi > 0.0 ==> (a.severity == Critical <==> reading.ndvi <= 0.5 * farm.baselineNdvi))
  {
    if farm.baselineNdvi > 0.0 {
      Gen.AssessBands(reading.ndvi, farm.baselineNdvi);
    }
  }

  /** The alert store as a value, with the alert `checkFarmHealth` returns. */
  datatype CheckOutcome = CheckOutcome(alerts: seq<Alert>, nextId: AlertId, newAlert: Option<Alert>)

  /** What `checkFarmHealth` does to a store holding `alerts` with fresh ids
      from `nextId`: nothing without a reading or a baseline; a healthy farm
      has its alerts auto-resolved once the reading reaches the recovery
      level; a stressed farm refreshes its active alert of the assessed
      severity, or gets a new one, which is returned. */
  function CheckEffect(alerts: seq<Alert>, nextId: AlertId, farm: Farms.Farm, latest: Option<NdviPoint>, now: int): (r: CheckOutcome)
    ensures |r.alerts| == |alerts| + (if r.newAlert.Some? then 1 else 0)
    ensures r.nextId == nextId + (if r.newAlert.Some? then 1 else 0)
    ensures r.newAlert.Some? ==>
      && r.newAlert.value.id == nextId && r.newAlert.value.status == Active && r.newAlert.value.farmId == farm.id
      && r.alerts == alerts + [r.newAlert.value]
    ensures latest.None? || farm.baselineNdvi == 0.0 ==> r == CheckOutcome(alerts, nextId, None)
    ensures forall i :: 0 <= i < |alerts| && alerts[i].farmId != farm.id ==> r.alerts[i] == alerts[i]
  {
    if latest.None? || farm.baselineNdvi == 0.0 then CheckOutcome(alerts, nextId, None)
    else
      var h := Gen.AssessNdviHealth(latest.value.ndvi, farm.baselineNdvi);
      if h.status == Gen.Healthy then
        var resolved := if latest.value.ndvi >= farm.baselineNdvi * RecoveryFraction
                        then AutoResolved(alerts, farm.id, latest.value.ndvi, now) else alerts;
        CheckOutcome(resolved, nextId, None)
      else
        var data := MonitorAlertData(farm, latest.value, h);
        match FindActive(alerts, farm.id, data.severity)
        case Some(k) => CheckOutcome(alerts[k := Refresh(alerts[k], data, now)], nextId, None)
        case None =>
          var alert := NewAlert(nextId, data, now);
          CheckOutcome(alerts + [alert], nextId + 1, Some(alert))
  }

  /** `checkFarmHealth(farm, latest)`: nothing without a reading or a baseline;
      a healthy farm has its alerts auto-resolved; a stressed one raises an
      alert, returned only when it is not a refresh of an active one. */
  method CheckFarmHealth(farm: Farms.Farm, latest: Option<NdviPoint>, store: AlertStore, now: int)
    returns (r: Option<Alert>)
    requires store.Valid()
    modifies store
    ensures store.Valid()
    ensures CheckOutcome(store.alerts, store.nextId, r) == CheckEffect(old(store.alerts), old(store.nextId), farm, latest, now)
    ensures latest.None? || farm.baselineNdvi == 0.0 ==> r.None? && unchanged(store)
    ensures latest.Some? && farm.baselineNdvi != 0.0 ==>
      var h := Gen.AssessNdviHealth(latest.value.ndvi, farm.baselineNdvi);
      && (h.status == Gen.Healthy ==>
            && r.None?
            && store.alerts == if latest.value.ndvi >= farm.baselineNdvi * RecoveryFraction
                               then AutoResolved(old(store.alerts), farm.id, latest.value.ndvi, now)
                               else old(store.alerts))
      && (h.status == Gen.Healthy && farm.baselineNdvi > 0.0 ==>
            store.alerts == AutoResolved(old(store.alerts), farm.id, latest.value.ndvi, now))
      && (h.status != Gen.Healthy ==>
            var data := MonitorAlertData(farm, latest.value, h);
            var k := FindActive(old(store.alerts), farm.id, data.severity);
            && (r.None? <==> k.Some?)
            && (k.Some? ==> store.alerts == old(store.alerts)[k.value := Refresh(old(store.alerts)[k.value], data, now)])
            && (r.Some? ==> r.value == NewAlert(old(store.nextId), data, now) && store.alerts == old(store.alerts) + [r.value]))
  {
    if latest.None? || farm.baselineNdvi == 0.0 {
      return None;
    }
    var reading := latest.value;
    var health := Gen.AssessNdviHealth(reading.ndvi, farm.baselineNdvi);
    if health.status == Gen.Healthy {
      if farm.baselineNdvi > 0.0 {
        Gen.HealthyAboveRecovery(reading.ndvi, farm.baselineNdvi);
      }
      var _ := store.AutoResolveAlerts(farm.id, reading.ndvi, farm.baselineNdvi, now);
      return None;
    }
    var data := MonitorAlertData(farm, reading, health);
    var alert, isDuplicate := store.StoreAlert(data, now);
    r := if isDuplicate then None else Some(alert);
  }

  datatype MonitorError = MonitorError(farmId: int, farmerName: string, error: string)

  datatype MonitorResults = MonitorResults(
    timestamp: int,
    farmsChecked: nat,
    alertsGenerated: nat,
    alertsResolved: nat,
    newAlerts: seq<Alert>,
    errors: seq<MonitorError>)

  /** Where a farm's callback throws: while its reading is fetched (before
      `farmsChecked++`), or inside `checkFarmHealth` (after it). A throw inside
      `checkFarmHealth` is taken to happen before the alert store changes. */
  datatype FaultStage = WhileFetching | WhileChecking

  datatype Fault = Fault(stage: FaultStage, message: string)

  /** The store holds a reading of the farm. */
  predicate HasReading(points: seq<NdviPoint>, farmId: int) {
    exists p | p in points :: p.farmId == farmId
  }

  /** The farm is counted as checked: its reading was fetched and it has one. */
  predicate Counted(points: seq<NdviPoint>, farmId: int, fault: Option<Fault>) {
    (fault.None? || fault.value.stage == WhileChecking) && HasReading(points, farmId)
  }

  /** The farm's callback throws: while fetching, or inside a check that runs. */
  predicate Throws(points: seq<NdviPoint>, farmId: int, fault: Option<Fault>) {
    fault.Some? && (fault.value.stage == WhileFetching || HasReading(points, farmId))
  }

  function FaultAt(faults: map<nat, Fault>, k: nat): Option<Fault> {
    if k in faults then Some(faults[k]) else None
  }

  /** The farms among the first `n` that are counted as checked. */
  function CheckedCount(farms: seq<Farms.Farm>, points: seq<NdviPoint>, faults: map<nat, Fault>, n: nat): nat
    requires n <= |farms|
  {
    if n == 0 then 0
    else CheckedCount(farms, points, faults, n - 1) +
         if Counted(points, farms[n - 1].id, FaultAt(faults, n - 1)) then 1 else 0
  }

  /** The error entries for the farms among the first `n` whose callback throws, in farm order. */
  function FaultLog(farms: seq<Farms.Farm>, points: seq<NdviPoint>, faults: map<nat, Fault>, n: nat): seq<MonitorError>
    requires n <= |farms|
  {
    if n == 0 then []
    else FaultLog(farms, points, faults, n - 1) +
         if Throws(points, farms[n - 1].id, FaultAt(faults, n - 1))
         then [MonitorError(farms[n - 1].id, farms[n - 1].farmerName, faults[n - 1].message)] else []
  }

  /** Neither count exceeds the farms; without faults there are no errors; and
      when no check throws, each farm is checked, logged or skipped, never two
      of these. */
  lemma {:induction false} CheckedAndFailedBounded(farms: seq<Farms.Farm>, points: seq<NdviPoint>, faults: map<nat, Fault>, n: nat)
    requires n <= |farms|
    ensures CheckedCount(farms, points, faults, n) <= n && |FaultLog(farms, points, faults, n)| <= n
    ensures (forall k :: 0 <= k < n ==> k !in faults) ==> FaultLog(farms, points, faults, n) == []
    ensures (forall k | k in faults :: faults[k].stage == WhileFetching) ==>
      CheckedCount(farms, points, faults, n) + |FaultLog(farms, points, faults, n)| <= n
  {
    if n > 0 {
      CheckedAndFailedBounded(farms, points, faults, n - 1);
    }
  }

  /** A check that throws counts its farm both as checked and as an error,
      because `farmsChecked++` runs before `checkFarmHealth`. */
  lemma CheckFaultCountedTwice(farm: Farms.Farm, points: seq<NdviPoint>, message: string)
    requires HasReading(points, farm.id)
    ensures var faults := map[0 := Fault(WhileChecking, message)];
      && CheckedCount([farm], points, faults, 1) == 1
      && FaultLog([farm], points, faults, 1) == [MonitorError(farm.id, farm.farmerName, message)]
  {
    var faults := map[0 := Fault(WhileChecking, message)];
    assert FaultAt(faults, 0) == Some(Fault(WhileChecking, message));
  }

  /** The latest reading of each farm, as `monitorAllFarms` fetches them; a
      farm has one exactly when the store holds a reading of it. */
  function LatestReadings(farms: seq<Farms.Farm>, ndvi: NdviStore): (r: seq<Option<NdviPoint>>)
    reads ndvi
    ensures |r| == |farms|
    ensures forall k :: 0 <= k < |farms| ==> (r[k].Some? <==> HasReading(ndvi.points, farms[k].id))
  {
    seq(|farms|, k requires 0 <= k < |farms| reads ndvi => ndvi.GetLatestNdvi(farms[k].id))
  }

  /** The alert store after the first `n` farms, the new alerts in farm order,
      and the positions of the farms that raised them. */
  datatype MonitorState = MonitorState(alerts: seq<Alert>, nextId: AlertId, newAlerts: seq<Alert>, raisedBy: seq<nat>)

  /** `monitorAllFarms`' loop over the first `n` farms as a value, given each
      farm's latest reading: each farm that is fetched without a fault and has
      a reading goes through `CheckEffect`; every other farm leaves the store
      alone. */
  function MonitorEffect(farms: seq<Farms.Farm>, readings: seq<Option<NdviPoint>>, faults: map<nat, Fault>,
                         alerts: seq<Alert>, nextId: AlertId, now: int, n: nat): MonitorState
    requires |readings| == |farms| && n <= |farms|
  {
    if n == 0 then MonitorState(alerts, nextId, [], [])
    else
      var prev := MonitorEffect(farms, readings, faults, alerts, nextId, now, n - 1);
      var latest := readings[n - 1];
      if n - 1 !in faults && latest.Some? then
        var o := CheckEffect(prev.alerts, prev.nextId, farms[n - 1], latest, now);
        if o.newAlert.Some? then
          MonitorState(o.alerts, o.nextId, prev.newAlerts + [o.newAlert.value], prev.raisedBy + [n - 1])
        else
          MonitorState(o.alerts, o.nextId, prev.newAlerts, prev.raisedBy)
      else prev
  }

  /** One step of `MonitorEffect`, in terms of `CheckEffect`'s outcome. */
  lemma MonitorEffectUnfold(farms: seq<Farms.Farm>, readings: seq<Option<NdviPoint>>, faults: map<nat, Fault>,
                            alerts: seq<Alert>, nextId: AlertId, now: int, n: nat)
    requires |readings| == |farms| && 0 < n <= |farms|
    ensures var prev := MonitorEffect(farms, readings, faults, alerts, nextId, now, n - 1);
      var r := MonitorEffect(farms, readings, faults, alerts, nextId, now, n);
      var o := CheckEffect(prev.alerts, prev.nextId, farms[n - 1], readings[n - 1], now);
      && (n - 1 in faults || readings[n - 1].None? ==> r == prev)
      && (n - 1 !in faults && readings[n - 1].Some? ==>
            && r.alerts == o.alerts && r.nextId == o.nextId
            && r.newAlerts == prev.newAlerts + (if o.newAlert.Some? then [o.newAlert.value] else []))
  {
  }

  /** What one farm's callback does, as `MonitorFarm` states it, is the next
      step of `MonitorEffect`, `CheckedCount` and `FaultLog`. */
  lemma MonitorEffectAfterFarm(farms: seq<Farms.Farm>, points: seq<NdviPoint>, readings: seq<Option<NdviPoint>>,
                               faults: map<nat, Fault>, alerts: seq<Alert>, nextId: AlertId, now: int, i: nat,
                               checked: bool, error: Option<MonitorError>,
                               storeAlerts: seq<Alert>, storeNextId: AlertId, newAlert: Option<Alert>)
    requires |readings| == |farms| && i < |farms|
    requires readings[i].Some? <==> HasReading(points, farms[i].id)
    requires checked <==> Counted(points, farms[i].id, FaultAt(faults, i))
    requires error.Some? <==> Throws(points, farms[i].id, FaultAt(faults, i))
    requires error.Some? ==> error.value == MonitorError(farms[i].id, farms[i].farmerName, FaultAt(faults, i).value.message)
    requires var before := MonitorEffect(farms, readings, faults, alerts, nextId, now, i);
      && (!checked || error.Some? ==> newAlert.None? && storeAlerts == before.alerts && storeNextId == before.nextId)
      && (checked && error.None? ==>
            CheckOutcome(storeAlerts, storeNextId, newAlert) == CheckEffect(before.alerts, before.nextId, farms[i], readings[i], now))
    ensures var before := MonitorEffect(farms, readings, faults, alerts, nextId, now, i);
      var e := MonitorEffect(farms, readings, faults, alerts, nextId, now, i + 1);
      && storeAlerts == e.alerts && storeNextId == e.nextId
      && e.newAlerts == before.newAlerts + (if newAlert.Some? then [newAlert.value] else [])
    ensures CheckedCount(farms, points, faults, i + 1) == CheckedCount(farms, points, faults, i) + if checked then 1 else 0
    ensures FaultLog(farms, points, faults, i + 1) == FaultLog(farms, points, faults, i) + if error.Some? then [error.value] else []
  {
    MonitorEffectUnfold(farms, readings, faults, alerts, nextId, now, i + 1);
  }

  /** One step of `MonitorEffect` adds at most one alert: fresh, active, of
      the farm just checked, which must have been fetched without a fault and
      have a reading. */
  lemma MonitorEffectStep(farms: seq<Farms.Farm>, readings: seq<Option<NdviPoint>>, faults: map<nat, Fault>,
                          alerts: seq<Alert>, nextId: AlertId, now: int, n: nat)
    requires |readings| == |farms| && 0 < n <= |farms|
    ensures var prev := MonitorEffect(farms, readings, faults, alerts, nextId, now, n - 1);
      var r := MonitorEffect(farms, readings, faults, alerts, nextId, now, n);
      && |r.raisedBy| - |prev.raisedBy| == |r.newAlerts| - |prev.newAlerts|
      && (r.newAlerts == prev.newAlerts ==>
            r.nextId == prev.nextId && |r.alerts| == |prev.alerts| && r.raisedBy == prev.raisedBy)
      && (r.newAlerts != prev.newAlerts ==>
            && n - 1 !in faults && readings[n - 1].Some?
            && r.nextId == prev.nextId + 1 && |r.alerts| == |prev.alerts| + 1
            && |r.newAlerts| == |prev.newAlerts| + 1 && r.newAlerts[..|prev.newAlerts|] == prev.newAlerts
            && r.raisedBy == prev.raisedBy + [n - 1]
            && var a := r.newAlerts[|prev.newAlerts|];
               a.id == prev.nextId && a.status == Active && a.farmId == farms[n - 1].id)
  {
    var prev := MonitorEffect(farms, readings, faults, alerts, nextId, now, n - 1);
    if n - 1 !in faults && readings[n - 1].Some? {
      var o := CheckEffect(prev.alerts, prev.nextId, farms[n - 1], readings[n - 1], now);
      if o.newAlert.Some? {
        assert (prev.newAlerts + [o.newAlert.value])[..|prev.newAlerts|] == prev.newAlerts;
      }
    }
  }

  /** The new alerts take consecutive fresh ids, are active, and are the only
      growth of the store. */
  lemma {:induction false} MonitorEffectIds(farms: seq<Farms.Farm>, readings: seq<Option<NdviPoint>>, faults: map<nat, Fault>,
                                            alerts: seq<Alert>, nextId: AlertId, now: int, n: nat)
    requires |readings| == |farms| && n <= |farms|
    ensures var r := MonitorEffect(farms, readings, faults, alerts, nextId, now, n);
      && r.nextId == nextId + |r.newAlerts| && |r.alerts| == |alerts| + |r.newAlerts|
      && forall k :: 0 <= k < |r.newAlerts| ==> r.newAlerts[k].id == nextId + k && r.newAlerts[k].status == Active
  {
    if n > 0 {
      MonitorEffectIds(farms, readings, faults, alerts, nextId, now, n - 1);
      MonitorEffectStep(farms, readings, faults, alerts, nextId, now, n);
      var prev := MonitorEffect(farms, readings, faults, alerts, nextId, now, n - 1);
      var r := MonitorEffect(farms, readings, faults, alerts, nextId, now, n);
      forall k | 0 <= k < |prev.newAlerts| ensures r.newAlerts[k] == prev.newAlerts[k] {
        assert r.newAlerts[..|prev.newAlerts|][k] == r.newAlerts[k];
      }
    }
  }

  /** Each new alert is raised by a farm that was fetched without a fault and
      has a reading, carries that farm's id, and the raising farms come in farm
      order, one alert each. */
  lemma {:induction false} MonitorEffectSources(farms: seq<Farms.Farm>, readings: seq<Option<NdviPoint>>,
                                                faults: map<nat, Fault>, alerts: seq<Alert>, nextId: AlertId, now: int, n: nat)
    requires |readings| == |farms| && n <= |farms|
    ensures var r := MonitorEffect(farms, readings, faults, alerts, nextId, now, n);
      && |r.raisedBy| == |r.newAlerts|
      && (forall k :: 0 <= k < |r.raisedBy| ==>
            && r.raisedBy[k] < n && r.raisedBy[k] !in faults && readings[r.raisedBy[k]].Some?
            && r.newAlerts[k].farmId == farms[r.raisedBy[k]].id)
      && forall j, k :: 0 <= j < k < |r.raisedBy| ==> r.raisedBy[j] < r.raisedBy[k]
  {
    if n > 0 {
      MonitorEffectSources(farms, readings, faults, alerts, nextId, now, n - 1);
      MonitorEffectStep(farms, readings, faults, alerts, nextId, now, n);
      var prev := MonitorEffect(farms, readings, faults, alerts, nextId, now, n - 1);
      var r := MonitorEffect(farms, readings, faults, alerts, nextId, now, n);
      if r.newAlerts != prev.newAlerts {
        var m := |prev.newAlerts|;
        assert r.raisedBy[m] == n - 1;
        forall k | 0 <= k < m ensures r.newAlerts[k] == prev.newAlerts[k] && r.raisedBy[k] == prev.raisedBy[k] {
          assert r.newAlerts[..m][k] == r.newAlerts[k];
        }
      }
    }
  }

  /** A farm raises at most one alert and only when it is counted as checked,
      so there are no more new alerts than checked farms. */
  lemma {:induction false} MonitorEffectWithinChecked(farms: seq<Farms.Farm>, points: seq<NdviPoint>, readings: seq<Option<NdviPoint>>,
                                                      faults: map<nat, Fault>, alerts: seq<Alert>, nextId: AlertId, now: int, n: nat)
    requires |readings| == |farms| && n <= |farms|
    requires forall k :: 0 <= k < |farms| ==> (readings[k].Some? <==> HasReading(points, farms[k].id))
    ensures |MonitorEffect(farms, readings, faults, alerts, nextId, now, n).newAlerts| <= CheckedCount(farms, points, faults, n)
  {
    if n > 0 {
      MonitorEffectWithinChecked(farms, points, readings, faults, alerts, nextId, now, n - 1);
      MonitorEffectStep(farms, readings, faults, alerts, nextId, now, n);
    }
  }

  /** The body of `monitorAllFarms`' per-farm callback: a farm whose fetch
      throws is logged; a farm with a reading is counted and checked, and is
      logged instead of changing the store when the check throws. */
  method MonitorFarm(farm: Farms.Farm, fault: Option<Fault>, ndvi: NdviStore, store: AlertStore, now: int)
    returns (checked: bool, newAlert: Option<Alert>, error: Option<MonitorError>)
    requires store.Valid()
    modifies store
    ensures store.Valid()
    ensures checked <==> Counted(ndvi.points, farm.id, fault)
    ensures error.Some? <==> Throws(ndvi.points, farm.id, fault)
    ensures error.Some? ==> error.value == MonitorError(farm.id, farm.farmerName, fault.value.message)
    ensures !checked || error.Some? ==> newAlert.None? && unchanged(store)
    ensures checked && error.None? ==>
      CheckOutcome(store.alerts, store.nextId, newAlert) ==
      CheckEffect(old(store.alerts), old(store.nextId), farm, ndvi.GetLatestNdvi(farm.id), now)
  {
    checked, newAlert, error := false, None, None;
    if fault.Some? && fault.value.stage == WhileFetching {
      error := Some(MonitorError(farm.id, farm.farmerName, fault.value.message));
      return;
    }
    var latest := ndvi.GetLatestNdvi(farm.id);
    assert latest.Some? <==> HasReading(ndvi.points, farm.id);
    if latest.Some? {
      checked := true;
      if fault.Some? {
        error := Some(MonitorError(farm.id, farm.farmerName, fault.value.message));
        return;
      }
      newAlert := CheckFarmHealth(farm, latest, store, now);
    }
  }

  /** `monitorAllFarms()` on day `now`. `faults` names the farms whose
      callback throws, and where (the source's `catch`). The store afterwards
      is `MonitorEffect` over all farms, and so are the new alerts. */
  method MonitorAllFarms(farms: seq<Farms.Farm>, ndvi: NdviStore, store: AlertStore, faults: map<nat, Fault>, now: int)
    returns (results: MonitorResults)
    requires store.Valid()
    modifies store
    ensures store.Valid()
    ensures var e := MonitorEffect(farms, LatestReadings(farms, ndvi), faults, old(store.alerts), old(store.nextId), now, |farms|);
      store.alerts == e.alerts && store.nextId == e.nextId && results.newAlerts == e.newAlerts
    ensures results.timestamp == now
    ensures results.farmsChecked == CheckedCount(farms, ndvi.points, faults, |farms|)
    ensures results.errors == FaultLog(farms, ndvi.points, faults, |farms|)
    ensures results.alertsGenerated == |results.newAlerts| <= results.farmsChecked <= |farms|
    ensures |results.errors| <= |farms|
    ensures (forall k | k in faults :: faults[k].stage == WhileFetching) ==> results.farmsChecked + |results.errors| <= |farms|
    ensures results.alertsResolved == 0
  {
    var allNdvi := ndvi.GetAllCurrentNdvi();
    ghost var points := ndvi.points;
    ghost var startAlerts, startId := store.alerts, store.nextId;
    ghost var readings := LatestReadings(farms, ndvi);
    var farmsChecked := 0;
    var newAlerts: seq<Alert> := [];
    var errors: seq<MonitorError> := [];
    var i := 0;
    while i < |farms|
      invariant 0 <= i <= |farms|
      invariant store.Valid() && ndvi.points == points
      invariant farmsChecked == CheckedCount(farms, points, faults, i)
      invariant errors == FaultLog(farms, points, faults, i)
      invariant var e := MonitorEffect(farms, readings, faults, startAlerts, startId, now, i);
        store.alerts == e.alerts && store.nextId == e.nextId && newAlerts == e.newAlerts
    {
      var farm := farms[i];
      assert readings[i] == ndvi.GetLatestNdvi(farm.id);
      ghost var before := MonitorEffect(farms, readings, faults, startAlerts, startId, now, i);
      var checked, newAlert, error := MonitorFarm(farm, FaultAt(faults, i), ndvi, store, now);
      MonitorEffectAfterFarm(farms, points, readings, faults, startAlerts, startId, now, i,
                             checked, error, store.alerts, store.nextId, newAlert);
      if error.Some? {
        errors := errors + [error.value];
      }
      if checked {
        farmsChecked := farmsChecked + 1;
      }
      if newAlert.Some? {
        newAlerts := newAlerts + [newAlert.value];
      }
      i := i + 1;
    }
    CheckedAndFailedBounded(farms, points, faults, |farms|);
    MonitorEffectWithinChecked(farms, points, readings, faults, startAlerts, startId, now, |farms|);
    results := MonitorResults(now, farmsChecked, |newAlerts|, 0, newAlerts, errors);
  }

  /** `farmHealthDistribution`. */
  datatype HealthCounts = HealthCounts(healthy: nat, warning: nat, critical: nat, severe: nat, noData: nat)

  datatype MonitoringStatus = MonitoringStatus(
    totalFarms: nat,
    farmsWithData: int,
    activeAlerts: nat,
    farmHealthDistribution: HealthCounts,
    lastCheck: int)

  /** The assessment of a farm's latest reading; `None` is the "no data" bucket. */
  function FarmHealth(farm: Farms.Farm, ndvi: NdviStore): Option<Gen.HealthStatus>
    reads ndvi
  {
    var latest := ndvi.GetLatestNdvi(farm.id);
    if latest.Some? && farm.baselineNdvi != 0.0 then Some(Gen.AssessNdviHealth(latest.value.ndvi, farm.baselineNdvi).status)
    else None
  }

  function Tally(c: HealthCounts, h: Option<Gen.HealthStatus>): HealthCounts {
    match h
    case None => c.(noData := c.noData + 1)
    case Some(Healthy) => c.(healthy := c.healthy + 1)
    case Some(Warning) => c.(warning := c.warning + 1)
    case Some(Critical) => c.(critical := c.critical + 1)
    case Some(Severe) => c.(severe := c.severe + 1)
  }

  /** The assessments of the farms, in farm order. */
  function FarmHealths(farms: seq<Farms.Farm>, ndvi: NdviStore): (r: seq<Option<Gen.HealthStatus>>)
    reads ndvi
    ensures |r| == |farms| && forall i :: 0 <= i < |farms| ==> r[i] == FarmHealth(farms[i], ndvi)
  {
    if farms == [] then [] else FarmHealths(farms[..|farms| - 1], ndvi) + [FarmHealth(farms[|farms| - 1], ndvi)]
  }

  /** The distribution of a sequence of assessments. */
  function Distribution(hs: seq<Option<Gen.HealthStatus>>): HealthCounts {
    if hs == [] then HealthCounts(0, 0, 0, 0, 0)
    else Tally(Distribution(hs[..|hs| - 1]), hs[|hs| - 1])
  }

  function Total(c: HealthCounts): nat {
    c.healthy + c.warning + c.critical + c.severe + c.noData
  }

  lemma DistributionStep(hs: seq<Option<Gen.HealthStatus>>, i: nat)
    requires i < |hs|
    ensures Distribution(hs[..i + 1]) == Tally(Distribution(hs[..i]), hs[i])
  {
    assert hs[..i + 1][..i] == hs[..i];
  }

  /** Tallying a farm adds one to exactly one bucket. */
  lemma TallyCountsOne(c: HealthCounts, h: Option<Gen.HealthStatus>)
    ensures Total(Tally(c, h)) == Total(c) + 1
  {
  }

  /** Every farm lands in exactly one bucket. */
  lemma {:induction false} DistributionCoversFarms(hs: seq<Option<Gen.HealthStatus>>)
    ensures Total(Distribution(hs)) == |hs|
  {
    if hs != [] {
      DistributionCoversFarms(hs[..|hs| - 1]);
      TallyCountsOne(Distribution(hs[..|hs| - 1]), hs[|hs| - 1]);
    }
  }

  /** `getMonitoringStatus()` on day `now`: the health distribution of the
      farms, how many have data, and the number of active alerts. */
  method GetMonitoringStatus(farms: seq<Farms.Farm>, ndvi: NdviStore, store: AlertStore, now: int)
    returns (status: MonitoringStatus)
    ensures status.totalFarms == |farms|
    ensures status.farmHealthDistribution == Distribution(FarmHealths(farms, ndvi))
    ensures Total(status.farmHealthDistribution) == |farms|
    ensures status.farmsWithData == |farms| - status.farmHealthDistribution.noData
    ensures 0 <= status.farmsWithData <= |farms|
    ensures status.activeAlerts == CountStatus(store.alerts, Active)
    ensures status.lastCheck == now
  {
    var active := store.GetActiveAlerts();
    ghost var hs := FarmHealths(farms, ndvi);
    var counts := HealthCounts(0, 0, 0, 0, 0);
    var i := 0;
    while i < |farms|
      invariant 0 <= i <= |farms|
      invariant counts == Distribution(hs[..i])
    {
      var farm := farms[i];
      var latest := ndvi.GetLatestNdvi(farm.id);
      var h: Option<Gen.HealthStatus> := None;
      if latest.Some? && farm.baselineNdvi != 0.0 {
        var health := Gen.AssessNdviHealth(latest.value.ndvi, farm.baselineNdvi);
        h := Some(health.status);
      }
      assert h == hs[i];
      DistributionStep(hs, i);
      counts := Tally(counts, h);
      i := i + 1;
    }
    assert hs[..i] == hs;
    DistributionCoversFarms(hs);
    status := MonitoringStatus(|farms|, |farms| - counts.noData, |active|, counts, now);
  }

  datatype MonitorFailure = FarmNotFound(farmId: int)

  /** The NDVI values of the demonstration alert. */
  const TestCurrentNdvi: real := 0.42
  const TestFallbackBaseline: real := 0.75
  const TestDropPercentage: real := 44.0

  /** The alert data of `generateTestAlert` for a farm. */
  function TestAlertData(farm: Farms.Farm, severity: Severity): (r: AlertData)
    ensures r.farmId == farm.id && r.farmerName == farm.farmerName && r.severity == severity
    ensures r.currentNdvi == 0.42 && r.dropPercentage == 44.0
    ensures r.baselineNdvi == (if farm.baselineNdvi != 0.0 then farm.baselineNdvi else 0.75)
    ensures r.estimatedCause == Some("test_scenario") && r.metadata.TestDetails?
  {
    AlertData(farm.id, farm.farmerName, "ndvi_drop", severity, TestCurrentNdvi,
              if farm.baselineNdvi != 0.0 then farm.baselineNdvi else TestFallbackBaseline,
              TestDropPercentage, TestAlertMessage(farm.farmerName, Farms.CropName(farm)),
              Some("test_scenario"), TestDetails(farm.cropType, farm.area))
  }

  /** `generateTestAlert(farmId, severity)`: an error for an unknown farm;
      otherwise the stored alert, which is the refreshed active one when the
      farm already has an active alert of that severity. The severity arrives
      as the caller's string. */
  method GenerateTestAlert(farms: seq<Farms.Farm>, farmId: int, severityName: string, store: AlertStore, now: int)
    returns (r: Result<Alert, MonitorFailure>)
    requires store.Valid()
    modifies store
    ensures store.Valid()
    ensures var k := Seqs.FirstIndex(farms, (f: Farms.Farm) => f.id == farmId);
      var severity := ParseSeverity(severityName);
      && (r.Failure? <==> k.None?)
      && (r.Failure? ==> r.error == FarmNotFound(farmId) && store.alerts == old(store.alerts) && store.nextId == old(store.nextId))
      && (r.Success? ==>
            var data := TestAlertData(farms[k.value], severity);
            var e := FindActive(old(store.alerts), farmId, severity);
            && r.value.farmId == farmId && SeverityName(r.value.severity) == severityName && r.value.status == Active
            && (e.Some? ==> store.alerts == old(store.alerts)[e.value := Refresh(old(store.alerts)[e.value], data, now)]
                            && r.value == store.alerts[e.value])
            && (e.None? ==> r.value == NewAlert(old(store.nextId), data, now) && store.alerts == old(store.alerts) + [r.value]))
  {
    var k := Seqs.FirstIndex(farms, (f: Farms.Farm) => f.id == farmId);
    if k.None? {
      return Failure(FarmNotFound(farmId));
    }
    var farm := farms[k.value];
    var alert, _ := store.StoreAlert(TestAlertData(farm, ParseSeverity(severityName)), now);
    r := Success(alert);
  }
}
