/** The in-memory alert store (data/alerts.js): a mutable list of alert
    records with an active -> acknowledged -> resolved lifecycle and at most
    one active alert per (farm, severity) pair. */
module Alerts {
  import opened Wrappers
  import opened Severities
  import Seqs
  import Sorting

  /** Alert ids come from a fresh-id supply (the source draws a uuid). */
  type AlertId = nat

  datatype Status = Active | Acknowledged | Resolved

  /** Abstract stand-ins for the message texts; the fields are what each text mentions. */
  datatype AlertMessage =
    | SevereAlertMessage(farmerName: string, crop: string, dropPercent: real)
    | CriticalAlertMessage(farmerName: string, crop: string, dropPercent: real)
    | WarningAlertMessage(farmerName: string, crop: string, dropPercent: real)
    | HealthIssueMessage(farmerName: string)
    | TestAlertMessage(farmerName: string, crop: string)

  /** The caller-supplied part of `metadata`. */
  datatype MetadataDetails =
    | NoDetails
    | MonitorDetails(cropType: string, area: real, insuranceValue: int, healthStatus: string, weatherCondition: string)
    | TestDetails(cropType: string, area: real)

  /** `metadata`, which auto-resolution extends with `autoResolved` and `recoveryNDVI`. */
  datatype AlertMetadata = AlertMetadata(details: MetadataDetails, autoResolved: bool, recoveryNdvi: Option<real>)

  /** The argument of `storeAlert`. An empty `alertType` is JavaScript's missing value. */
  datatype AlertData = AlertData(
    farmId: int,
    farmerName: string,
    alertType: string,
    severity: Severity,
    currentNdvi: real,
    baselineNdvi: real,
    dropPercentage: real,
    message: AlertMessage,
    estimatedCause: Option<string>,
    metadata: MetadataDetails)

  datatype Alert = Alert(
    id: AlertId,
    farmId: int,
    farmerName: string,
    alertType: string,
    severity: Severity,
    currentNdvi: real,
    baselineNdvi: real,
    dropPercentage: real,
    message: AlertMessage,
    timestamp: int,
    status: Status,
    estimatedCause: Option<string>,
    metadata: AlertMetadata,
    acknowledgedAt: Option<int>,
    resolvedAt: Option<int>)

  datatype AlertError = AlertNotFound | AlertNotActive

  /** The fraction of the baseline at which `autoResolveAlerts` considers a farm recovered. */
  const RecoveryFraction: real := 0.8

  /** How many alerts `getAlertStats` reports as recent. */
  const RecentAlertCount: nat := 10

  /** The record `storeAlert` builds for a new alert. */
  function NewAlert(id: AlertId, data: AlertData, now: int): Alert {
    Alert(id, data.farmId, data.farmerName,
          if data.alertType == "" then "ndvi_drop" else data.alertType,
          data.severity, data.currentNdvi, data.baselineNdvi, data.dropPercentage,
          data.message, now, Active,
          if data.estimatedCause == Some("") then None else data.estimatedCause,
          AlertMetadata(data.metadata, false, None), None, None)
  }

  /** What a repeated `storeAlert` overwrites in the existing active alert. */
  function Refresh(a: Alert, data: AlertData, now: int): Alert {
    a.(timestamp := now, currentNdvi := data.currentNdvi, dropPercentage := data.dropPercentage,
       message := data.message)
  }

  /** What `autoResolveAlerts` writes into each active alert of a recovered farm. */
  function MarkAutoResolved(a: Alert, recoveryNdvi: real, now: int): Alert {
    a.(status := Resolved, resolvedAt := Some(now),
       metadata := a.metadata.(autoResolved := true, recoveryNdvi := Some(recoveryNdvi)))
  }

  predicate IsActiveFor(a: Alert, farmId: int, severity: Severity) {
    a.status == Active && a.farmId == farmId && a.severity == severity
  }

  /** The position `storeAlert`'s `find` stops at: the first active alert for the pair. */
  function FindActive(s: seq<Alert>, farmId: int, severity: Severity): (r: Option<nat>)
    ensures r.Some? ==> r.value < |s| && IsActiveFor(s[r.value], farmId, severity)
    ensures r.Some? ==> forall j :: 0 <= j < r.value ==> !IsActiveFor(s[j], farmId, severity)
    ensures r.None? <==> forall j :: 0 <= j < |s| ==> !IsActiveFor(s[j], farmId, severity)
  {
    Seqs.FirstIndex(s, (a: Alert) => IsActiveFor(a, farmId, severity))
  }

  /** The position `getAlert`'s `find` stops at. */
  function IndexOfId(s: seq<Alert>, id: AlertId): (r: Option<nat>)
    ensures r.Some? ==> r.value < |s| && s[r.value].id == id
    ensures r.None? <==> forall j :: 0 <= j < |s| ==> s[j].id != id
  {
    Seqs.FirstIndex(s, (a: Alert) => a.id == id)
  }

  /** Two alerts that may sit side by side in the store: different ids, and not
      both active for the same (farm, severity) pair. */
  predicate Compatible(a: Alert, b: Alert) {
    a.id != b.id && !(a.status == Active && b.status == Active && a.farmId == b.farmId && a.severity == b.severity)
  }

  /** The de-duplication invariant: never two active alerts for the same (farm, severity). */
  ghost predicate AtMostOneActivePerKey(s: seq<Alert>) {
    forall i, j :: 0 <= i < j < |s| && s[i].status == Active && s[j].status == Active && s[i].farmId == s[j].farmId
      ==> s[i].severity != s[j].severity
  }

  ghost predicate DistinctIds(s: seq<Alert>) {
    forall i, j :: 0 <= i < j < |s| ==> s[i].id != s[j].id
  }

  function NewestKey(a: Alert): int { -a.timestamp }

  ghost predicate NewestFirst(s: seq<Alert>) {
    forall i, j :: 0 <= i < j < |s| ==> s[i].timestamp >= s[j].timestamp
  }

  /** The comparator `(a, b) => b.timestamp - a.timestamp` under a stable sort. */
  function SortNewestFirst(s: seq<Alert>): (r: seq<Alert>)
    ensures |r| == |s| && multiset(r) == multiset(s)
    ensures forall a | a in r :: a in s
    ensures forall a | a in s :: a in r
    ensures NewestFirst(r)
  {
    var r := Sorting.Sort(s, NewestKey);
    assert forall i, j :: 0 <= i < j < |r| ==> NewestKey(r[i]) <= NewestKey(r[j]);
    r
  }

  /** Sorting the store in place keeps the de-duplication invariant and distinct ids. */
  lemma SortKeepsInvariant(s: seq<Alert>)
    requires AtMostOneActivePerKey(s) && DistinctIds(s)
    ensures AtMostOneActivePerKey(SortNewestFirst(s)) && DistinctIds(SortNewestFirst(s))
  {
    assert Sorting.Pairwise(s, Compatible);
    Sorting.SortPreservesPairwise(s, NewestKey, Compatible);
  }

  /** The string an alert's `status` field holds. */
  function AlertStatusName(st: Status): (name: string)
    ensures name == "active" || name == "acknowledged" || name == "resolved"
    ensures name == "active" <==> st == Active
    ensures name == "resolved" <==> st == Resolved
  {
    match st
    case Active => "active"
    case Acknowledged => "acknowledged"
    case Resolved => "resolved"
  }

  /** The query filters; `None` is an absent filter. The status is the raw
      query string, so any string may arrive. A farm id of 0 and an empty
      status or severity string are falsy in the source and so filter nothing. */
  datatype Filters = Filters(status: Option<string>, severity: Option<Severity>, farmId: Option<int>)

  predicate Matches(f: Filters, a: Alert) {
    && (f.status.None? || f.status.value == "" || AlertStatusName(a.status) == f.status.value)
    && (f.severity.None? || SeverityName(f.severity.value) == "" || a.severity == f.severity.value)
    && (f.farmId.None? || f.farmId.value == 0 || a.farmId == f.farmId.value)
  }

  function FilterMatching(s: seq<Alert>, f: Filters): (r: seq<Alert>)
    ensures forall a | a in multiset(s) :: multiset(r)[a] == if Matches(f, a) then multiset(s)[a] else 0
    ensures multiset(r) <= multiset(s)
    ensures forall a | a in r :: a in s && Matches(f, a)
    ensures forall a | a in s && Matches(f, a) :: a in r
  {
    Seqs.Filter(s, (a: Alert) => Matches(f, a))
  }

  function FilterFarm(s: seq<Alert>, farmId: int): (r: seq<Alert>)
    ensures forall a | a in multiset(s) :: multiset(r)[a] == if a.farmId == farmId then multiset(s)[a] else 0
    ensures multiset(r) <= multiset(s)
    ensures forall a | a in r :: a in s && a.farmId == farmId
  {
    Seqs.Filter(s, (a: Alert) => a.farmId == farmId)
  }

  /** The alerts `autoResolveAlerts` leaves behind once the farm has recovered. */
  function AutoResolved(s: seq<Alert>, farmId: int, recoveryNdvi: real, now: int): (r: seq<Alert>)
    ensures |r| == |s|
    ensures forall i :: 0 <= i < |s| ==> r[i].id == s[i].id && r[i].farmId == s[i].farmId && r[i].severity == s[i].severity
    ensures forall i :: 0 <= i < |s| && !IsActiveFor(s[i], farmId, s[i].severity) ==> r[i] == s[i]
    ensures forall i :: 0 <= i < |s| && IsActiveFor(s[i], farmId, s[i].severity) ==> r[i].status == Resolved
  {
    seq(|s|, i requires 0 <= i < |s| =>
      if IsActiveFor(s[i], farmId, s[i].severity) then MarkAutoResolved(s[i], recoveryNdvi, now) else s[i])
  }

  /** The test `autoResolveAlerts` applies to each alert: active and of the farm. */
  function ActiveOf(farmId: int): (p: Alert -> bool)
    ensures forall a :: p(a) == IsActiveFor(a, farmId, a.severity)
  {
    (a: Alert) => IsActiveFor(a, farmId, a.severity)
  }

  /** How many active alerts a farm has; `autoResolveAlerts` returns this count. */
  function CountActiveOf(s: seq<Alert>, farmId: int): (n: nat)
    ensures n <= |s|
  {
    if s == [] then 0
    else CountActiveOf(s[..|s| - 1], farmId) + if IsActiveFor(s[|s| - 1], farmId, s[|s| - 1].severity) then 1 else 0
  }

  /** The count is the number of alerts a filter on that test keeps, so it
      counts each active alert of the farm once and nothing else. */
  lemma {:induction false} CountActiveOfIsFilter(s: seq<Alert>, farmId: int)
    ensures CountActiveOf(s, farmId) == |Seqs.Filter(s, ActiveOf(farmId))|
  {
    CountActiveOfIsCountIf(s, farmId);
    Seqs.FilterLength(s, ActiveOf(farmId));
  }

  lemma {:induction false} CountActiveOfIsCountIf(s: seq<Alert>, farmId: int)
    ensures CountActiveOf(s, farmId) == Seqs.CountIf(s, ActiveOf(farmId))
  {
    if s != [] {
      CountActiveOfIsCountIf(s[..|s| - 1], farmId);
    }
  }

  function CountStatus(s: seq<Alert>, st: Status): nat {
    if s == [] then 0
    else CountStatus(s[..|s| - 1], st) + if s[|s| - 1].status == st then 1 else 0
  }

  /** Alerts of severity `sev`; with `activeOnly`, the active ones among them. */
  function CountSeverity(s: seq<Alert>, sev: Severity, activeOnly: bool): nat {
    if s == [] then 0
    else
      var a := s[|s| - 1];
      CountSeverity(s[..|s| - 1], sev, activeOnly) + if a.severity == sev && (!activeOnly || a.status == Active) then 1 else 0
  }

  datatype SeverityCounts = SeverityCounts(critical: nat, high: nat, medium: nat, low: nat)

  datatype AlertStats = AlertStats(
    total: nat,
    active: nat,
    acknowledged: nat,
    resolved: nat,
    bySeverity: SeverityCounts,
    activeBySeverity: SeverityCounts,
    recentAlerts: seq<Alert>)

  function SeverityCountsOf(s: seq<Alert>, activeOnly: bool): SeverityCounts {
    SeverityCounts(CountSeverity(s, Critical, activeOnly), CountSeverity(s, High, activeOnly),
                   CountSeverity(s, Medium, activeOnly), CountSeverity(s, Low, activeOnly))
  }

  /** `stats.bySeverity[alert.severity]++`, which only the four standard names reach. */
  function Bump(c: SeverityCounts, sev: Severity): SeverityCounts {
    match sev
    case Critical => c.(critical := c.critical + 1)
    case High => c.(high := c.high + 1)
    case Medium => c.(medium := c.medium + 1)
    case Low => c.(low := c.low + 1)
    case OtherSeverity(_) => c
  }

  function SumCounts(c: SeverityCounts): nat { c.critical + c.high + c.medium + c.low }

  /** The `forEach` of `getAlertStats`: counts by status, by severity and active by severity. */
  method TallyAlerts(s: seq<Alert>)
    returns (active: nat, acknowledged: nat, resolved: nat, bySeverity: SeverityCounts, activeBySeverity: SeverityCounts)
    ensures active == CountStatus(s, Active) && acknowledged == CountStatus(s, Acknowledged)
    ensures resolved == CountStatus(s, Resolved)
    ensures bySeverity == SeverityCountsOf(s, false) && activeBySeverity == SeverityCountsOf(s, true)
  {
    active, acknowledged, resolved := 0, 0, 0;
    bySeverity := SeverityCounts(0, 0, 0, 0);
    activeBySeverity := SeverityCounts(0, 0, 0, 0);
    var i := 0;
    while i < |s|
      invariant 0 <= i <= |s|
      invariant active == CountStatus(s[..i], Active) && acknowledged == CountStatus(s[..i], Acknowledged)
      invariant resolved == CountStatus(s[..i], Resolved)
      invariant bySeverity == SeverityCountsOf(s[..i], false)
      invariant activeBySeverity == SeverityCountsOf(s[..i], true)
    {
      var a := s[i];
      TallyStep(s, i);
      if a.status == Active {
        active := active + 1;
      } else if a.status == Acknowledged {
        acknowledged := acknowledged + 1;
      } else if a.status == Resolved {
        resolved := resolved + 1;
      }
      bySeverity := Bump(bySeverity, a.severity);
      if a.status == Active {
        activeBySeverity := Bump(activeBySeverity, a.severity);
      }
      i := i + 1;
    }
    assert s[..i] == s;
  }

  /** One more alert counted. */
  lemma TallyStep(s: seq<Alert>, i: nat)
    requires i < |s|
    ensures forall st :: CountStatus(s[..i + 1], st) == CountStatus(s[..i], st) + if s[i].status == st then 1 else 0
    ensures SeverityCountsOf(s[..i + 1], false) == Bump(SeverityCountsOf(s[..i], false), s[i].severity)
    ensures SeverityCountsOf(s[..i + 1], true) ==
      if s[i].status == Active then Bump(SeverityCountsOf(s[..i], true), s[i].severity) else SeverityCountsOf(s[..i], true)
  {
    assert s[..i + 1][..i] == s[..i];
  }

  /** Every alert has one of the three statuses, so the status counts add up to the total. */
  lemma {:induction false} StatusCountsSum(s: seq<Alert>)
    ensures CountStatus(s, Active) + CountStatus(s, Acknowledged) + CountStatus(s, Resolved) == |s|
  {
    if s != [] {
      StatusCountsSum(s[..|s| - 1]);
    }
  }

  /** The active count of a severity never exceeds its overall count. */
  lemma {:induction false} ActiveBySeverityBounded(s: seq<Alert>, sev: Severity)
    ensures CountSeverity(s, sev, true) <= CountSeverity(s, sev, false)
  {
    if s != [] {
      ActiveBySeverityBounded(s[..|s| - 1], sev);
    }
  }

  /** The four severity counts add up to the number of alerts with a standard severity. */
  lemma {:induction false} SeverityCountsSum(s: seq<Alert>)
    ensures SumCounts(SeverityCountsOf(s, false)) <= |s|
    ensures (forall i :: 0 <= i < |s| ==> IsStandard(s[i].severity)) ==> SumCounts(SeverityCountsOf(s, false)) == |s|
  {
    if s != [] {
      SeverityCountsSum(s[..|s| - 1]);
    }
  }

  /** After a first `storeAlert` that created an alert, a second one for the
      same farm and severity finds it: the second call is a duplicate update. */
  lemma SecondStoreIsDuplicate(s: seq<Alert>, id: AlertId, data: AlertData, now: int)
    requires FindActive(s, data.farmId, data.severity).None?
    ensures FindActive(s + [NewAlert(id, data, now)], data.farmId, data.severity) == Some(|s|)
  {
    var t := s + [NewAlert(id, data, now)];
    assert IsActiveFor(t[|s|], data.farmId, data.severity);
    assert forall j :: 0 <= j < |s| ==> t[j] == s[j] && !IsActiveFor(t[j], data.farmId, data.severity);
  }

  /** After auto-resolution no alert of the farm is active, and alerts of other farms are untouched. */
  lemma AutoResolvedEffect(s: seq<Alert>, farmId: int, recoveryNdvi: real, now: int)
    ensures |AutoResolved(s, farmId, recoveryNdvi, now)| == |s|
    ensures forall i :: 0 <= i < |s| && s[i].farmId == farmId ==> AutoResolved(s, farmId, recoveryNdvi, now)[i].status != Active
    ensures forall i :: 0 <= i < |s| && s[i].farmId != farmId ==> AutoResolved(s, farmId, recoveryNdvi, now)[i] == s[i]
    ensures forall i :: 0 <= i < |s| && IsActiveFor(s[i], farmId, s[i].severity) ==>
      var a := AutoResolved(s, farmId, recoveryNdvi, now)[i];
      a.status == Resolved && a.metadata.autoResolved && a.metadata.recoveryNdvi == Some(recoveryNdvi) && a.id == s[i].id
  {
  }

  /** Auto-resolution keeps the store invariant: it only retires active alerts and keeps every id. */
  lemma AutoResolvedKeepsInvariant(s: seq<Alert>, farmId: int, recoveryNdvi: real, now: int, nextId: AlertId)
    requires AtMostOneActivePerKey(s) && DistinctIds(s) && forall i :: 0 <= i < |s| ==> s[i].id < nextId
    ensures var r := AutoResolved(s, farmId, recoveryNdvi, now);
      AtMostOneActivePerKey(r) && DistinctIds(r) && forall i :: 0 <= i < |r| ==> r[i].id < nextId
  {
    var r := AutoResolved(s, farmId, recoveryNdvi, now);
    assert forall k :: 0 <= k < |r| ==> r[k].id == s[k].id;
    assert forall k :: 0 <= k < |r| && r[k].status == Active ==> r[k] == s[k];
  }

  class AlertStore {
    var alerts: seq<Alert>
    /** The next unused id: the model's fresh-id supply. */
    var nextId: AlertId

    ghost predicate Valid()
      reads this
    {
      && AtMostOneActivePerKey(alerts)
      && DistinctIds(alerts)
      && forall i :: 0 <= i < |alerts| ==> alerts[i].id < nextId
    }

    constructor ()
      ensures Valid() && alerts == [] && nextId == 0
    {
      alerts := [];
      nextId := 0;
    }

    /** `storeAlert`: refresh the active alert for the same (farm, severity) if
        there is one, otherwise append a new active alert with a fresh id. */
    method StoreAlert(data: AlertData, now: int) returns (alert: Alert, isDuplicate: bool)
      requires Valid()
      modifies this
      ensures Valid()
      ensures isDuplicate <==> FindActive(old(alerts), data.farmId, data.severity).Some?
      ensures isDuplicate ==>
        var k := FindActive(old(alerts), data.farmId, data.severity).value;
        && alerts == old(alerts)[k := Refresh(old(alerts)[k], data, now)]
        && alert == alerts[k]
        && nextId == old(nextId)
      ensures !isDuplicate ==>
        && alert == NewAlert(old(nextId), data, now)
        && alerts == old(alerts) + [alert]
        && nextId == old(nextId) + 1
    {
      var existing := FindActive(alerts, data.farmId, data.severity);
      if existing.Some? {
        var k := existing.value;
        alerts := alerts[k := Refresh(alerts[k], data, now)];
        alert := alerts[k];
        isDuplicate := true;
        return;
      }
      alert := NewAlert(nextId, data, now);
      alerts := alerts + [alert];
      nextId := nextId + 1;
      isDuplicate := false;
    }

    /** `getAlerts(filters)`: the matching alerts, newest first; the store itself is not reordered. */
    function GetAlerts(f: Filters): (r: seq<Alert>)
      reads this
      ensures forall a | a in multiset(alerts) :: multiset(r)[a] == if Matches(f, a) then multiset(alerts)[a] else 0
      ensures forall a | a in r :: a in alerts && Matches(f, a)
      ensures NewestFirst(r)
    {
      SortNewestFirst(FilterMatching(alerts, f))
    }

    /** `getActiveAlerts`. */
    function GetActiveAlerts(): (r: seq<Alert>)
      reads this
      ensures forall a | a in r :: a in alerts && a.status == Active
      ensures forall a | a in alerts && a.status == Active :: a in r
      ensures |r| == CountStatus(alerts, Active)
      ensures NewestFirst(r)
    {
      var r := GetAlerts(Filters(Some("active"), None, None));
      assert r == SortNewestFirst(FilterMatching(alerts, Filters(Some("active"), None, None)));
      ActiveCountIsFilterLength(alerts);
      r
    }

    /** `getFarmAlerts(farmId, limit)`: the farm's alerts newest first, cut by `slice(0, limit)`. */
    function GetFarmAlerts(farmId: int, limit: int): (r: seq<Alert>)
      reads this
      ensures forall a | a in r :: a in alerts && a.farmId == farmId
      ensures NewestFirst(r)
      ensures 0 <= limit ==> |r| <= limit
      ensures |FilterFarm(alerts, farmId)| <= limit ==> multiset(r) == multiset(FilterFarm(alerts, farmId))
      ensures |r| == Seqs.SliceIndex(limit, |FilterFarm(alerts, farmId)|)
      ensures r == SortNewestFirst(FilterFarm(alerts, farmId))[..|r|]
    {
      var farm := FilterFarm(alerts, farmId);
      var all := SortNewestFirst(farm);
      var r := Seqs.Slice(all, 0, limit);
      assert r == all[..|r|];
      assert |all| == |farm| && Seqs.SliceIndex(0, |all|) == 0;
      assert |r| == Seqs.SliceIndex(limit, |farm|);
      assert |farm| <= limit ==> r == all;
      r
    }

    /** `getAlert(id)`. */
    function GetAlert(id: AlertId): (r: Option<Alert>)
      reads this
      ensures r.None? <==> forall a | a in alerts :: a.id != id
      ensures r.Some? ==> r.value in alerts && r.value.id == id
    {
      match IndexOfId(alerts, id)
      case None => None
      case Some(k) => Some(alerts[k])
    }

    /** `getAlertCount`. */
    function GetAlertCount(): (n: nat)
      reads this
      ensures n == |alerts|
      ensures n == CountStatus(alerts, Active) + CountStatus(alerts, Acknowledged) + CountStatus(alerts, Resolved)
    {
      StatusCountsSum(alerts);
      |alerts|
    }

    /** `acknowledgeAlert`: only an active alert can be acknowledged. */
    method AcknowledgeAlert(id: AlertId, now: int) returns (r: Result<Alert, AlertError>)
      requires Valid()
      modifies this
      ensures Valid() && nextId == old(nextId)
      ensures IndexOfId(old(alerts), id).None? ==> r == Failure(AlertNotFound) && alerts == old(alerts)
      ensures IndexOfId(old(alerts), id).Some? ==>
        var k := IndexOfId(old(alerts), id).value;
        if old(alerts)[k].status != Active then
          r == Failure(AlertNotActive) && alerts == old(alerts)
        else
          && alerts == old(alerts)[k := old(alerts)[k].(status := Acknowledged, acknowledgedAt := Some(now))]
          && r == Success(alerts[k])
    {
      var found := IndexOfId(alerts, id);
      if found.None? {
        return Failure(AlertNotFound);
      }
      var k := found.value;
      if alerts[k].status != Active {
        return Failure(AlertNotActive);
      }
      alerts := alerts[k := alerts[k].(status := Acknowledged, acknowledgedAt := Some(now))];
      r := Success(alerts[k]);
    }

    /** `resolveAlert`: resolves from any status; only an unknown id fails. */
    method ResolveAlert(id: AlertId, now: int) returns (r: Result<Alert, AlertError>)
      requires Valid()
      modifies this
      ensures Valid() && nextId == old(nextId)
      ensures IndexOfId(old(alerts), id).None? ==> r == Failure(AlertNotFound) && alerts == old(alerts)
      ensures IndexOfId(old(alerts), id).Some? ==>
        var k := IndexOfId(old(alerts), id).value;
        && alerts == old(alerts)[k := old(alerts)[k].(status := Resolved, resolvedAt := Some(now))]
        && r == Success(alerts[k])
    {
      var found := IndexOfId(alerts, id);
      if found.None? {
        return Failure(AlertNotFound);
      }
      var k := found.value;
      alerts := alerts[k := alerts[k].(status := Resolved, resolvedAt := Some(now))];
      r := Success(alerts[k]);
    }

    /** `autoResolveAlerts`: once `currentNdvi >= 0.8 * baselineNdvi`, resolve every
        active alert of the farm (whatever its severity) and return how many. */
    method AutoResolveAlerts(farmId: int, currentNdvi: real, baselineNdvi: real, now: int) returns (count: nat)
      requires Valid()
      modifies this
      ensures Valid() && nextId == old(nextId)
      ensures currentNdvi >= baselineNdvi * RecoveryFraction ==>
        alerts == AutoResolved(old(alerts), farmId, currentNdvi, now) && count == CountActiveOf(old(alerts), farmId)
      ensures currentNdvi < baselineNdvi * RecoveryFraction ==> alerts == old(alerts) && count == 0
    {
      count := 0;
      if currentNdvi >= baselineNdvi * RecoveryFraction {
        ghost var before := alerts;
        var i := 0;
        while i < |alerts|
          invariant 0 <= i <= |alerts| == |before|
          invariant forall k :: 0 <= k < i ==> alerts[k] == AutoResolved(before, farmId, currentNdvi, now)[k]
          invariant forall k :: i <= k < |alerts| ==> alerts[k] == before[k]
          invariant count == CountActiveOf(before[..i], farmId)
          invariant nextId == old(nextId)
        {
          assert before[..i + 1][..i] == before[..i];
          if IsActiveFor(alerts[i], farmId, alerts[i].severity) {
            alerts := alerts[i := MarkAutoResolved(alerts[i], currentNdvi, now)];
            count := count + 1;
          }
          i := i + 1;
        }
        assert before[..i] == before;
        assert alerts == AutoResolved(before, farmId, currentNdvi, now);
        AutoResolvedKeepsInvariant(before, farmId, currentNdvi, now, nextId);
      }
    }

    /** `getAlertStats`: counts, then the live store is sorted newest first in
        place (its only side effect) and the first ten are reported. */
    method GetAlertStats() returns (stats: AlertStats)
      requires Valid()
      modifies this
      ensures Valid() && nextId == old(nextId)
      ensures alerts == SortNewestFirst(old(alerts))
      ensures multiset(alerts) == multiset(old(alerts)) && NewestFirst(alerts)
      ensures stats.total == |old(alerts)|
      ensures stats.active == CountStatus(old(alerts), Active)
      ensures stats.acknowledged == CountStatus(old(alerts), Acknowledged)
      ensures stats.resolved == CountStatus(old(alerts), Resolved)
      ensures stats.bySeverity == SeverityCountsOf(old(alerts), false)
      ensures stats.activeBySeverity == SeverityCountsOf(old(alerts), true)
      ensures stats.recentAlerts == alerts[..Seqs.Min(RecentAlertCount, |alerts|)]
    {
      var active, acknowledged, resolved, bySeverity, activeBySeverity := TallyAlerts(alerts);
      var total := |alerts|;
      SortKeepsInvariant(alerts);
      ghost var before := alerts;
      alerts := SortNewestFirst(alerts);
      forall i | 0 <= i < |alerts| ensures alerts[i].id < nextId {
        assert alerts[i] in multiset(before);
      }
      var recent := Seqs.Slice(alerts, 0, RecentAlertCount);
      stats := AlertStats(total, active, acknowledged, resolved, bySeverity, activeBySeverity, recent);
    }

    /** `clearAllAlerts`: empties the store and reports how many alerts it held. */
    method ClearAllAlerts() returns (clearedCount: nat)
      requires Valid()
      modifies this
      ensures Valid() && nextId == old(nextId)
      ensures alerts == [] && clearedCount == |old(alerts)|
    {
      clearedCount := |alerts|;
      alerts := [];
    }
  }

  lemma {:induction false} CountStatusCountsIf(s: seq<Alert>, p: Alert -> bool)
    requires forall a :: p(a) == (a.status == Active)
    ensures CountStatus(s, Active) == Seqs.CountIf(s, p)
  {
    if s != [] {
      CountStatusCountsIf(s[..|s| - 1], p);
    }
  }

  /** The active filter selects exactly `CountStatus(s, Active)` alerts. */
  lemma ActiveCountIsFilterLength(s: seq<Alert>)
    ensures |FilterMatching(s, Filters(Some("active"), None, None))| == CountStatus(s, Active)
  {
    var p := (a: Alert) => Matches(Filters(Some("active"), None, None), a);
    Seqs.FilterLength(s, p);
    CountStatusCountsIf(s, p);
  }

  /** Status names are distinct, so a status filter naming a status keeps exactly the alerts in it. */
  lemma AlertStatusNameInjective(a: Status, b: Status)
    ensures AlertStatusName(a) == AlertStatusName(b) <==> a == b
  {
  }

  /** A status filter that names no status (`?status=bogus`) matches no alert at all. */
  lemma UnknownStatusMatchesNothing(s: seq<Alert>, f: Filters)
    requires f.status.Some? && f.status.value != ""
    requires forall st: Status :: AlertStatusName(st) != f.status.value
    ensures FilterMatching(s, f) == []
  {
  }
}
