# PMFBY crop-health alerting core, modelled in Dafny

This project models the alerting core of the PMFBY crop-insurance dashboard
and proves properties about it. The dashboard watches farms through
satellite NDVI readings (a vegetation index between 0 and 1). It keeps an
in-memory store of readings, and it simulates a daily series of readings from
a crop growth curve. It can write flood, drought or pest damage into a series.
Each reading is assessed against the farm's healthy baseline. An alert is
raised, refreshed or auto-resolved in an in-memory alert store. The
administrative-division endpoints list and page farms, and the map view
decides which farms are visible.

Files and modules:

- `wrappers.dfy` (`Wrappers`): `Option` and `Result`.
- `seqs.dfy` (`Seqs`): JavaScript's `filter`, `find`/`findIndex` and `slice`.
- `sorting.dfy` (`Sorting`): a stable insertion sort by an integer key, which stands in for `Array.prototype.sort`.
- `severities.dfy`, `farms.dfy`: the severity levels and the farm record.
- `alerts.dfy` (`Alerts`): the alert store, a class whose `alerts` field the methods update.
- `ndvi_data.dfy` (`NdviData`): the reading store. A reading's weather metadata is a heap object, because the disaster injection writes through shared references to it.
- `ndvi_generator.dfy` (`NdviGenerator`): the growth curve, the series generator, the disaster injection and the health assessment.
- `ndvi_monitor.dfy` (`NdviMonitor`): the monitoring service, which operates on the two stores.
- `divisions.dfy` (`Divisions`): the logic of the division routes.
- `map_helpers.dfy` (`MapHelpers`): the GeoJSON conversion and the viewport filter.

Modelling conventions:

- Dates are day numbers, and the current day is a parameter.
- `Math.random()` is a caller-supplied draw in [0, 1).
- A uuid is a counter in the alert store that is never reused.
- An absent string is `""` and an absent number is `0`, matching how the source tests them for truthiness.
- Message texts are tagged values that carry the fields the text mentions.

## Model

| member | source | states |
|---|---|---|
| Severities.SeverityName | data/alerts.js:215 | the string of a severity is one of the four counted names exactly when the severity is one of the four levels |
| Severities.ParseSeverity | services/ndviMonitor.js:202-214 | the severity read from a string has that string as its name, and is a standard level exactly when the string is one of the four names |
| Severities.SeverityNameInjective | data/alerts.js:35 | two severities are equal exactly when their strings are, so comparing severities is comparing the source's strings |
| Severities.ParseOfName | services/ndviMonitor.js:214 | reading a severity's own string back gives the severity |
| Alerts.FindActive | data/alerts.js:34-39 | the position of the first active alert for the same farm and severity; none exactly when there is no such alert |
| Alerts.IndexOfId | data/alerts.js:112-114 | the position of an alert with the id; none exactly when no alert has it |
| Alerts.SortNewestFirst | data/alerts.js:78-79 | the sorted list is a permutation of the input with the same elements, newest first |
| Alerts.SortKeepsInvariant | data/alerts.js:226-228 | sorting the live store in place keeps at most one active alert per (farm, severity) and keeps the ids distinct |
| Alerts.AlertStatusName | data/alerts.js:28 | the status string is one of "active", "acknowledged", "resolved", and names the active and the resolved status exactly |
| Alerts.AlertStatusNameInjective | data/alerts.js:64-65 | two statuses are equal exactly when their strings are, so a status filter naming a status keeps exactly that status |
| Alerts.FilterMatching | data/alerts.js:63-76 | exactly the alerts that pass every given filter, each with its multiplicity; the status filter is any query string, compared with the alert's status string; a farm id of 0 or an empty status or severity string filters nothing |
| Alerts.UnknownStatusMatchesNothing | data/alerts.js:64-65 | a non-empty status filter that names no status (`?status=bogus`) keeps no alert |
| Alerts.FilterFarm | data/alerts.js:99-100 | exactly the alerts of the farm, each with its multiplicity |
| Alerts.AutoResolved | data/alerts.js:168-175 | as many alerts as before, each keeping its id, farm and severity; every active alert of the farm becomes resolved, and every other alert is unchanged |
| Alerts.CountActiveOfIsFilter | data/alerts.js:162-177 | the count auto-resolution returns is the length of the filter on "active and of the farm", so each such alert is counted once and no other |
| Alerts.TallyAlerts | data/alerts.js:208-223 | the loop's counters are the store's status counts, its counts per severity and its active counts per severity |
| Alerts.TallyStep | data/alerts.js:208-223 | one more alert raises exactly its status counter and its severity counters, the active ones only when it is active |
| Alerts.StatusCountsSum | data/alerts.js:209-212 | the active, acknowledged and resolved counts add up to the total |
| Alerts.ActiveBySeverityBounded | data/alerts.js:219-222 | per severity, the active count never exceeds the overall count |
| Alerts.SeverityCountsSum | data/alerts.js:214-217 | the four severity counts add up to at most the total, and to the total when every severity is one of the four |
| Alerts.SecondStoreIsDuplicate | data/alerts.js:33-52 | after a call that created an alert, a second call for the same farm and severity finds that alert and is a duplicate |
| Alerts.AutoResolvedEffect | data/alerts.js:168-175 | after auto-resolution no alert of the farm is active; other farms' alerts are unchanged; each retired alert is resolved, marked auto-resolved with the recovery reading, and keeps its id |
| Alerts.AutoResolvedKeepsInvariant | data/alerts.js:161-181 | auto-resolution keeps the one-active-alert-per-(farm, severity) invariant and the distinct ids |
| Alerts.ActiveCountIsFilterLength | data/alerts.js:88-90 | the active filter keeps exactly as many alerts as are active |
| Alerts.AlertStore.constructor | data/alerts.js:9 | the store starts empty |
| Alerts.AlertStore.StoreAlert | data/alerts.js:16-53 | a duplicate holds exactly when an active alert for the (farm, severity) exists; that alert's time, reading, drop and message are refreshed in place and it is returned; otherwise a new active alert with a fresh id is appended, an empty cause stored as absent; the invariant is kept |
| Alerts.AlertStore.GetAlerts | data/alerts.js:60-82 | the alerts that pass every given filter (any status string, compared with the alert's status string; a farm id of 0 or an empty status or severity string filters nothing), with multiplicity, newest first |
| Alerts.AlertStore.GetActiveAlerts | data/alerts.js:88-90 | exactly the active alerts, as many as there are, newest first |
| Alerts.AlertStore.GetFarmAlerts | data/alerts.js:98-105 | the farm's alerts newest first and at most `limit` of them; all of them when there are no more than `limit`; the kept alerts are the start of the newest-first list, as many as `slice(0, limit)` keeps, so a negative limit drops that many of the oldest |
| Alerts.AlertStore.GetAlert | data/alerts.js:112-114 | an alert with the id, or none exactly when there is none |
| Alerts.AlertStore.GetAlertCount | data/alerts.js:247-249 | the number of alerts in the store, which is also the sum of the three status counts |
| Alerts.AlertStore.AcknowledgeAlert | data/alerts.js:121-136 | an unknown id gives "not found" and a non-active alert gives "not active", and neither changes the store; otherwise only that alert becomes acknowledged, with the time |
| Alerts.AlertStore.ResolveAlert | data/alerts.js:143-154 | an unknown id gives "not found"; an alert of any status becomes resolved, with the time |
| Alerts.AlertStore.AutoResolveAlerts | data/alerts.js:161-181 | at or above 80 % of the baseline, every active alert of the farm is auto-resolved and their number is returned; below it nothing changes and 0 is returned |
| Alerts.AlertStore.GetAlertStats | data/alerts.js:187-231 | the status and severity counts of the store; the store is then sorted newest first in place and its first ten alerts are reported |
| Alerts.AlertStore.ClearAllAlerts | data/alerts.js:237-241 | the store is emptied and its former size returned |
| NdviData.WeatherMetadata.constructor | services/ndviGenerator.js:43-47 | a metadata object with the given cloud cover, temperature and rainfall |
| NdviData.SortOldestFirst | data/ndviData.js:21 | a permutation of the points in ascending time |
| NdviData.SortNewestFirst | data/ndviData.js:49 | a permutation of the points in descending time, with the same elements |
| NdviData.WithoutFarms | data/ndviData.js:14-15 | exactly the points of farms outside the batch, each with its multiplicity |
| NdviData.FarmPointsSince | data/ndviData.js:36-37 | exactly the farm's points from the cutoff day on, each with its multiplicity |
| NdviData.FarmPoints | data/ndviData.js:47-48 | exactly the points of the farm |
| NdviData.LatestOf | data/ndviData.js:46-52 | none exactly when no point is of the farm; otherwise a stored point of the farm that no point of the farm follows |
| NdviData.LatestOfIsSortHead | data/ndviData.js:47-51 | the scan returns the head of the farm's points stably sorted newest first, which is what the source returns, and none for an empty list |
| Sorting.FirstMin | data/ndviData.js:49-51 | an element of a nonempty list whose key no element's key undercuts |
| Sorting.SortHead | data/ndviData.js:49-51 | the head of the stable sort is the first element with the least key |
| NdviData.MinTimestamp | data/ndviData.js:90-95 | a timestamp of the store that no point precedes |
| NdviData.MaxTimestamp | data/ndviData.js:96-101 | a timestamp of the store that no point follows |
| NdviData.FarmsTrackedBounded | data/ndviData.js:87-88 | there are never more distinct farms than points |
| NdviData.ExtendOtherFarm | data/ndviData.js:61-69 | a point of another farm leaves a farm's latest point where it is |
| NdviData.ExtendKeepLatest | data/ndviData.js:63-66 | a point that is not strictly later keeps the earlier latest point |
| NdviData.ExtendNewLatest | data/ndviData.js:63-67 | a strictly later point becomes the farm's latest |
| NdviData.ExtendFirstOfFarm | data/ndviData.js:62-67 | the first point of a farm becomes its latest |
| NdviData.TracksExtend | data/ndviData.js:61-69 | one step of the loop keeps the map holding each farm's latest point, the first one seen on a tie |
| NdviData.NdviStore.constructor | data/ndviData.js:6 | the store starts empty |
| NdviData.NdviStore.StoreNdviData | data/ndviData.js:12-24 | the batch's farms lose their old points; the batch is added and the store re-sorted by time; points of other farms are kept; the batch size is returned |
| NdviData.NdviStore.GetNdviHistory | data/ndviData.js:32-39 | exactly the farm's points from day `today - days` on, with multiplicity, oldest first; days are compared whole (see "Left out") |
| NdviData.NdviStore.GetLatestNdvi | data/ndviData.js:46-52 | none exactly when the farm has no point; otherwise a stored point of the farm that no point of the farm follows |
| NdviData.NdviStore.GetAllCurrentNdvi | data/ndviData.js:58-72 | one entry per farm of the store, holding its latest point, the first one seen on a tie |
| NdviData.NdviStore.ClearNdviData | data/ndviData.js:77-80 | the store is empty |
| NdviData.NdviStore.GetNdviStats | data/ndviData.js:85-104 | the number of points; the number of distinct farm ids among them, at most that; the oldest and newest timestamps, which occur in the store and bound every point, and which are absent exactly when the store is empty |
| NdviGenerator.GrowthCurveStages | services/ndviGenerator.js:63-84 | 0.2 before and at sowing, 0.3 at day 15, 0.6 at day 30, the baseline from day 60 to day 89, and 0.3 from day 120 on |
| NdviGenerator.HealthyNdvi | services/ndviGenerator.js:63-84 | the curve never rises above the larger of the baseline and 0.6 |
| NdviGenerator.GrowthCurveStep | services/ndviGenerator.js:65-79 | before harvest the curve moves by at most 0.02 plus a thirtieth of the distance between the baseline and 0.6 from one day to the next |
| NdviGenerator.VegetativeStage | services/ndviGenerator.js:71-73 | between days 30 and 60 the curve lies between 0.6 and the baseline |
| NdviGenerator.GrowthCurveRange | services/ndviGenerator.js:63-84 | for a baseline of at least 0.6 the curve stays between 0.2 and the baseline |
| NdviGenerator.ClampNdvi | services/ndviGenerator.js:35 | the result lies in [0.2, 0.9]; a value inside is kept, and one outside goes to the nearer bound |
| NdviGenerator.GeneratedNdviNearCurve | services/ndviGenerator.js:31-35 | a generated reading is within 0.05 of the clamped healthy curve |
| NdviGenerator.WindowStart | services/ndviGenerator.js:101 | `max(0, len - startDay - duration)`: a position at or after `len - startDay - duration`, and inside the series when `startDay + duration` is not negative |
| NdviGenerator.WindowEnd | services/ndviGenerator.js:102 | `min(len, len - startDay)`: one of the two and at most both; negative exactly when `startDay` exceeds the length |
| NdviGenerator.GenerateNdviTimeSeries | services/ndviGenerator.js:13-52 | one point per day from `today - daysHistory` to today, oldest first, with strictly increasing days; each point has the farm's id, normal weather, the curve plus noise clamped to [0.2, 0.9], and a fresh metadata object of its own with the scaled draws |
| NdviGenerator.WindowInSeries | services/ndviGenerator.js:101-106 | a window position lies in the series, and a nonempty window has a positive duration |
| NdviGenerator.KindName | services/ndviGenerator.js:94 | the `type` string of a kind is one of the three the `switch` acts on exactly when the kind is not unknown |
| NdviGenerator.ParseDisasterKind | services/ndviGenerator.js:108-133 | the kind read from a `type` string has that string as its name, and is unknown exactly when the string is none of "flood", "drought" and "pest" |
| NdviGenerator.KindNameInjective | services/ndviGenerator.js:108-133 | two kinds are equal exactly when their strings are, as the `switch` compares them |
| NdviGenerator.DisasterNdvi | services/ndviGenerator.js:108-133 | a flood or drought reading is at least 0.2, a pest reading at least 0.3, and an unknown kind keeps the reading |
| NdviGenerator.DisasterNdviBounds | services/ndviGenerator.js:108-133 | a disaster never raises a reading above the larger of the reading and 0.3, and never raises at all a reading at or above its kind's floor; it lowers it by at most its kind's full impact, and not below the floor; an unknown kind changes nothing |
| NdviGenerator.DroughtImpactBounded | services/ndviGenerator.js:119-121 | the drought impact lies between 0 and 40 % of the severity |
| NdviGenerator.TailAsWrittenFailsIff | services/ndviGenerator.js:139-149 | the source's recovery loop reads a position before the series exactly when `startDay` exceeds the series length |
| NdviGenerator.TailAsWrittenCounterexample | services/ndviGenerator.js:139-149 | for a 61-point series and a disaster started 70 days back, the source's recovery loop starts at position -9 |
| NdviGenerator.TailInSeries | services/ndviGenerator.js:139-152 | the corrected tail lies inside the series after the window and is at most 15 points long; it agrees with the source whenever the source does not fail |
| NdviGenerator.RecoveryNdvi | services/ndviGenerator.js:145-149 | capped at 0.85; on the first tail day the reading, capped; with non-negative days and severity never below the capped reading |
| NdviGenerator.DisasterPoint | services/ndviGenerator.js:104-152 | the point keeps its farm, day and metadata reference; outside the window and tail it is unchanged; in the window it takes the disaster reading for its day, and in the tail the recovery reading with the recovering weather |
| NdviGenerator.DisasterPointShape | services/ndviGenerator.js:104-152 | a point outside the window and the tail is untouched; any point keeps its farm, day and metadata reference; a tail point is recovering and capped at 0.85, and for a non-negative severity a reading at most 0.85 is not lowered; the first tail point keeps a reading of at most 0.85 |
| NdviGenerator.ApplyWindow | services/ndviGenerator.js:100-136 | each window point gets the disaster's reading and weather, and other points are unchanged; through the shared metadata objects a flood rewrites the rainfall and a drought rewrites the rainfall and temperature, and nothing else |
| NdviGenerator.ApplyRecoveryTail | services/ndviGenerator.js:139-152 | the points of the corrected tail recover towards 0.85 with the recovering weather, and all other points are unchanged |
| NdviGenerator.InjectDisasterEvent | services/ndviGenerator.js:92-155 | every point of the result is the injected point at that position, and the window's shared metadata objects are rewritten as for the disaster's kind |
| NdviGenerator.HealthMessageFor | services/ndviGenerator.js:197-205 | the message reports the drop it was given |
| NdviGenerator.HealthMessageInjective | services/ndviGenerator.js:198-203 | different statuses get different messages |
| NdviGenerator.DropPercentage | services/ndviGenerator.js:164 | the drop times the baseline is the baseline minus the reading, times 100 |
| NdviGenerator.StatusSeverity | services/ndviGenerator.js:168-184 | always one of the four standard severities |
| NdviGenerator.AssessNdviHealth | services/ndviGenerator.js:163-195 | the drop in percent of the baseline; the severity and the message of the status; healthy exactly below a 10 % drop and severe exactly from a 50 % drop |
| NdviGenerator.AssessBands | services/ndviGenerator.js:164-184 | for a positive baseline, the four statuses are the bands of the reading above 90 %, above 75 % and above 50 % of the baseline, and the rest |
| NdviGenerator.DropBelow | services/ndviGenerator.js:164-176 | a drop below t percent is the same as a reading above (1 - t/100) times a positive baseline |
| NdviGenerator.AssessMonotone | services/ndviGenerator.js:168-184 | a lower reading against the same positive baseline is never assessed healthier |
| NdviGenerator.HealthyAboveRecovery | services/ndviGenerator.js:168-171 | a healthy reading is at or above 80 % of a positive baseline, the level at which the farm's alerts auto-resolve |
| NdviMonitor.MapHealthToSeverity | services/ndviMonitor.js:71-79 | always one of the four standard severities; low exactly for healthy and critical exactly for severe |
| NdviMonitor.SeverityTablesAgree | services/ndviMonitor.js:71-79 | the monitor's severity table is the assessor's |
| NdviMonitor.MapHealthToSeverityInjective | services/ndviMonitor.js:72-77 | different statuses map to different severities |
| NdviMonitor.GenerateAlertMessage | services/ndviMonitor.js:87-100 | one message kind per status, naming the farmer; the three stress messages name the crop (`cropType` or else `crop`) and the drop |
| NdviMonitor.MonitorAlertData | services/ndviMonitor.js:40-57 | the alert data names the farm and its farmer, carries the reading, the baseline and the assessed drop, has the standard severity of the status, no cause and "unknown" weather |
| NdviMonitor.MonitorAlertDescribesAssessment | services/ndviMonitor.js:40-57 | the alert raised for a reading carries the farm, the reading, the baseline, the drop and the assessed severity; it is critical exactly when the reading is at most half a positive baseline |
| NdviMonitor.CheckEffect | services/ndviMonitor.js:21-64 | the store grows by one alert exactly when one is returned, which is new, active, of the farm and has the next id; nothing changes without a reading or a baseline; other farms' alerts are untouched |
| NdviMonitor.CheckFarmHealth | services/ndviMonitor.js:21-64 | nothing, and no change, without a reading or a baseline; a healthy farm returns nothing and has its alerts auto-resolved; a stressed farm refreshes its active alert of that severity and returns nothing, or appends and returns a new active alert |
| NdviMonitor.CheckedAndFailedBounded | services/ndviMonitor.js:119-140 | neither the checked farms nor the logged errors outnumber the farms; with no failing farm the error log is empty; when every fault happens while fetching, checked farms and errors together never outnumber the farms |
| NdviMonitor.CheckFaultCountedTwice | services/ndviMonitor.js:123-138 | a farm with a reading whose check throws is counted as checked and logged as an error, because the count is raised before the check |
| NdviMonitor.LatestReadings | services/ndviMonitor.js:121 | one fetched reading per farm, present exactly when the store holds a reading of that farm |
| NdviMonitor.MonitorFarm | services/ndviMonitor.js:120-139 | a farm is counted as checked exactly when its fetch does not throw and it has a reading; it is logged, with its id, name and message, exactly when its callback throws; without a throw a checked farm changes the store as `CheckEffect` says, and otherwise the store is unchanged |
| NdviMonitor.MonitorAllFarms | services/ndviMonitor.js:106-159 | the store and the new alerts afterwards are the fold of `CheckEffect` over the farms in order, skipping faulty and unread farms; the checked count and the error log, farm by farm; no more new alerts than checked farms |
| NdviMonitor.MonitorEffectIds | services/ndviMonitor.js:119-131 | over the fold, the new alerts are active and carry consecutive fresh ids, and the store grows by exactly as many alerts as are reported |
| NdviMonitor.MonitorEffectSources | services/ndviMonitor.js:119-131 | each new alert is raised by a distinct farm, in farm order, that was fetched without a fault and has a reading, and carries that farm's id |
| NdviMonitor.MonitorEffectWithinChecked | services/ndviMonitor.js:123-131 | there are never more new alerts than checked farms |
| NdviMonitor.FarmHealths | services/ndviMonitor.js:177-185 | one assessment per farm, in farm order, each that of the farm's latest reading |
| NdviMonitor.DistributionStep | services/ndviMonitor.js:177-185 | one more farm adds its assessment to the distribution |
| NdviMonitor.TallyCountsOne | services/ndviMonitor.js:179-184 | a farm adds one to exactly one bucket |
| NdviMonitor.DistributionCoversFarms | services/ndviMonitor.js:169-185 | the five buckets add up to the number of farms |
| NdviMonitor.GetMonitoringStatus | services/ndviMonitor.js:165-194 | the distribution of the farms' assessments, covering every farm; the farms with data are the total minus the no-data bucket; the active alerts are the store's active count |
| NdviMonitor.TestAlertData | services/ndviMonitor.js:210-225 | the test data names the farm and its farmer, has the given severity, a reading of 0.42, a drop of 44, the farm's baseline or 0.75 without one, and the "test_scenario" cause |
| NdviMonitor.GenerateTestAlert | services/ndviMonitor.js:202-229 | an unknown farm is an error and leaves the store unchanged; otherwise the test alert is stored, refreshing an active one of that severity or appending a new one, and is returned |
| Divisions.DistinctNonEmpty | routes/divisions.js:11-15 | the non-empty strings, each once, in order of first occurrence |
| Divisions.Column | routes/divisions.js:13 | one field per farm, in farm order; a value occurs exactly when some farm has it |
| Divisions.ListDistricts | routes/divisions.js:9-20 | every district some farm names, and only those, each once, in order of first occurrence |
| Divisions.InDistrict | routes/divisions.js:28-31 | the farms of the district, or all farms when no district is given |
| Divisions.InTehsil | routes/divisions.js:50-53 | the farms of the tehsil, or all farms when no tehsil is given |
| Divisions.ListTehsils | routes/divisions.js:25-42 | every tehsil of a farm in the district (of any farm when none is given), and only those, each once, in order of first occurrence |
| Divisions.ListVillages | routes/divisions.js:47-64 | every village of a farm in the tehsil (of any farm when none is given), and only those, each once, in order of first occurrence |
| Divisions.ToLower | routes/divisions.js:95-97 | the same length; no upper-case ASCII letter remains; each such letter becomes its lower-case form and every other character is kept |
| Divisions.ToLowerIdempotent | routes/divisions.js:95-97 | lowering twice is lowering once |
| Divisions.ContainsIff | routes/divisions.js:97 | `includes` holds exactly when the term occurs at some position of the string |
| Divisions.NameMatchesIff | routes/divisions.js:94-98 | a farm matches exactly when the lower-cased term occurs in its lower-cased name; an empty term matches every farm |
| Divisions.NameMatchesIgnoresCase | routes/divisions.js:94-98 | terms differing only in letter case match the same farms, as does the lower-cased term, and lowering the name changes nothing |
| Divisions.ChainStart | routes/divisions.js:74 | before any filter the chain holds every farm |
| Divisions.ChainStep | routes/divisions.js:76-99 | applying the next filter, or skipping it for an empty parameter, keeps the farms that pass one more criterion |
| Divisions.ByDistrict | routes/divisions.js:77-81 | the farms that pass the district criterion, in order |
| Divisions.ByTehsil | routes/divisions.js:82-86 | the farms that pass the district and tehsil criteria, in order |
| Divisions.ByVillage | routes/divisions.js:87-91 | the farms that pass the first three criteria, in order |
| Divisions.BySearch | routes/divisions.js:93-99 | the farms that pass all four criteria, in order |
| Divisions.ChainIsQuery | routes/divisions.js:76-99 | passing the four filters in turn is the same as matching every given parameter |
| Divisions.FilterByDivision | routes/divisions.js:74-99 | the order-preserving subsequence of the farms that match every given parameter, and all of them |
| Seqs.Slice | routes/divisions.js:110 | `slice(start, end)`: the elements from the clipped start position up to the clipped end position, negative positions counting from the end, and empty when the end is not past the start |
| Divisions.TotalPages | routes/divisions.js:105 | `ceil(total / limit)`: for a positive limit enough pages and no empty last page; for a negative limit the ceiling of the non-positive quotient; none for a zero limit |
| Divisions.PageBounds | routes/divisions.js:106-107 | the page's start and end, clipped to the list and in order |
| Divisions.Page | routes/divisions.js:106-110 | at most `limit` farms, all from the list; for a valid page, the slice between its bounds |
| Divisions.PagesAreAPrefix | routes/divisions.js:102-110 | with a positive limit, the first n pages are the first n times limit farms |
| Divisions.PagesCoverList | routes/divisions.js:102-110 | with a positive limit, pages 1 to `totalPages` put the filtered list back together |
| Divisions.FarmsByDivision | routes/divisions.js:70-125 | the total is the filtered count; the data is the requested page of the filtered farms, at most `limit` of them; the page count, the paging parameters and the filters are echoed |
| Divisions.FindDistrict | routes/divisions.js:143 | the position of the district's entry; none exactly when it has none |
| Divisions.FindTehsil | routes/divisions.js:150 | the position of the tehsil's entry; none exactly when it has none |
| Divisions.AddToDistricts | routes/divisions.js:142-147 | the entry of the name gains one farm and its area, or a new entry with count 1 is appended; every entry keeps its name, others are unchanged, and distinct names stay distinct |
| Divisions.AddToTehsils | routes/divisions.js:149-154 | the same for the tehsil table; every entry keeps its district, and a new entry takes the farm's district |
| Divisions.DistrictTableCovers | routes/divisions.js:138-147 | the district table has distinct names and an entry for every farm's district key |
| Divisions.DistrictTableNames | routes/divisions.js:139-144 | every district entry is named after some farm's district key |
| Divisions.TehsilTableCovers | routes/divisions.js:138-154 | the tehsil table has distinct names and an entry for every farm's tehsil key |
| Divisions.DistrictSumBump | routes/divisions.js:146 | raising one entry's count raises the sum by one |
| Divisions.TehsilSumBump | routes/divisions.js:153 | raising one entry's count raises the sum by one |
| Divisions.AddToDistrictsCounts | routes/divisions.js:142-147 | counting a farm into the district table raises the total count by one |
| Divisions.AddToTehsilsCounts | routes/divisions.js:149-154 | counting a farm into the tehsil table raises the total count by one |
| Divisions.DistrictCountsCover | routes/divisions.js:138-147 | the district counts add up to the number of farms |
| Divisions.TehsilCountsCover | routes/divisions.js:138-155 | the tehsil counts add up to the number of farms |
| Divisions.FirstInTehsil | routes/divisions.js:140 | the first farm whose tehsil key is the name; none exactly when no farm has it |
| Divisions.FirstInTehsilAt | routes/divisions.js:140 | a farm in the tehsil with none of the tehsil before it is the first |
| Divisions.FirstInTehsilExtend | routes/divisions.js:138-155 | appending farms never changes a tehsil's first farm; a new tehsil's first farm is the appended farm |
| Divisions.RecordsFirstDistrictExtend | routes/divisions.js:150-151 | what an entry records stays true when farms are appended |
| Divisions.NewTehsilUnseen | routes/divisions.js:150 | a tehsil with no entry is no earlier farm's tehsil |
| Divisions.FirstOfNewTehsil | routes/divisions.js:150-151 | a farm of a tehsil no earlier farm is in is that tehsil's first farm |
| Divisions.TehsilRecordsFirstDistrict | routes/divisions.js:150-151 | every tehsil entry names a tehsil of some farm and records the district of the first farm seen in it |
| Divisions.TableStep | routes/divisions.js:138-155 | the tables after one more farm are the earlier tables with that farm counted in |
| Divisions.CountDistrict | routes/divisions.js:142-147 | creating the entry when missing and then counting the farm is one step of the district table |
| Divisions.CountTehsil | routes/divisions.js:149-154 | the same for the tehsil table; a created entry takes the farm's district |
| Divisions.KeyCountIsFilter | routes/divisions.js:137-153 | the reference count of a key is the length of the filter of the farms with that key |
| Divisions.DistrictEntriesTally | routes/divisions.js:137-146 | each district entry's count is the number of farms with its key, and its area their summed area |
| Divisions.TehsilEntriesTally | routes/divisions.js:148-153 | each tehsil entry's count is the number of farms with its key, and its area their summed area |
| Divisions.DivisionStats | routes/divisions.js:130-161 | the two tables the loop builds, with counts adding up to the number of farms, and each entry holding the number and summed area of the farms with its key |
| MapHelpers.SwapRing | client/src/utils/mapHelpers.js:13 | the same number of vertices, each with its two coordinates exchanged |
| MapHelpers.SwapRingTwice | client/src/utils/mapHelpers.js:13 | swapping twice gives back the ring |
| MapHelpers.ToFeature | client/src/utils/mapHelpers.js:7-22 | the farm's id and properties, and a single ring that swaps back to the farm's polygon |
| MapHelpers.FarmsToGeoJSON | client/src/utils/mapHelpers.js:4-24 | one feature per farm, in order, with the farm's id and properties and one ring of as many vertices as the polygon |
| MapHelpers.GeoJSONRingsRoundTrip | client/src/utils/mapHelpers.js:12-14 | every feature's ring, swapped back, is its farm's polygon |
| MapHelpers.IsPolygonInBounds | client/src/utils/mapHelpers.js:29-39 | true exactly when some vertex lies in the closed rectangle; false for an empty polygon |
| MapHelpers.GetVisibleFarms | client/src/utils/mapHelpers.js:44-48 | nothing without bounds or farms; otherwise the order-preserving subsequence of the farms with a vertex in view, and all of them |
| MapHelpers.PolygonStaysInWiderBounds | client/src/utils/mapHelpers.js:31-38 | a polygon in view stays in view when the bounds grow |
| MapHelpers.VisibleFarmsMonotone | client/src/utils/mapHelpers.js:44-48 | widening the bounds never hides a farm; the narrower view is the wider view filtered again |

## Left out

- Clocks, `uuid`, `Math.random()` and `console.log`: the current day, a fresh-id counter and caller-supplied draws stand in for the first three, and logging is dropped.
- The Express wiring of the routes, the JSON envelopes (`success`, `count`), and the `try`/`catch` 500 responses of the division routes: nothing in the modelled handler bodies throws on well-formed farm data.
- data/farms.js (the farm list) is not part of this model: the farms are a parameter.
- Floating-point rounding: `toFixed` and `parseFloat` in readings, drops and messages are not modelled, and values are exact reals.
- The satellite-image URL of a generated point is not modelled.
- Message texts are tagged values that carry what each text mentions, not strings.
- NdviGenerator.AssessNdviHealth: requires a non-zero baseline. For a zero baseline the source divides by zero and gets an IEEE infinity or NaN. Both callers in the monitor skip a zero baseline before calling, and floating-point special values are not modelled.
- NdviGenerator.HealthMessageFor: the source's "Status unknown" fallback is unreachable, because every status has a message.
- NdviMonitor.MapHealthToSeverity: the source's `"medium"` fallback is unreachable, because every status has an entry.
- NdviMonitor.MonitorAllFarms: a failure inside the per-farm `try` is a caller-supplied fault map, because nothing in the modelled code throws on well-formed data. A fault happens either while the reading is fetched (before `farmsChecked++`) or inside `checkFarmHealth` (after it). A fault inside `checkFarmHealth` is taken to happen before the alert store changes; a throw after a partial update is not modelled. Such a farm is both counted and logged (`CheckFaultCountedTwice`), so the bound "checked plus errors is at most the farms" is stated only when every fault happens while fetching. The unused `getAllCurrentNDVI` result has no effect. `alertsResolved` is always 0, as in the source.
- NdviData.NdviStore.GetLatestNdvi: computed by a scan, `LatestOf`, which `LatestOfIsSortHead` proves equal to the head of the farm's points after the stable newest-first sort; the model does not rebuild the sorted list.
- NdviMonitor.CheckFarmHealth: readings never carry a `disaster` or a `metadata.weatherCondition` field, so the cause is always absent and the weather always "unknown".
- NdviData.NdviStore.GetAllCurrentNdvi: returns the farm-to-point map rather than `Object.values` in key order.
- NdviGenerator.InjectDisasterEvent and NdviGenerator.ApplyWindow: require the window's points to hold distinct metadata objects. The source allows shared objects, in which case the last write wins; its callers pass either a generated series, whose points each get a fresh metadata object (`GenerateNdviTimeSeries` ensures this), or a stored history (routes/ndvi.js:188), which may be the output of an earlier injection. In that case the points still hold distinct metadata objects: each point of an injection's output shares its object only with the point it replaced in the store, and that point is gone.
- NdviData.NdviStore.GetNdviHistory: compares whole days, while the source compares instants: the cutoff is "now minus `days` days" at query time, and a generated point carries the time of day at which it was generated. For a series generated earlier the same day, the source therefore drops the oldest point and returns 60 points where the model returns 61.
- Divisions.DivisionStats: the tables list names in the order first met. A JavaScript object lists integer-like keys (such as "12") first, in ascending order, and the model does not reproduce that key order.
- Alerts.SortNewestFirst: states sortedness and permutation, not stability; equal timestamps may come out in any order.
- Alerts.AlertStore.GetAlerts, Alerts.AlertStore.GetFarmAlerts and Alerts.AlertStore.GetAlertStats: alert timestamps are whole days, while the source orders by instant, newest first. The order among alerts of the same day is therefore not modelled: neither which same-day alerts `getFarmAlerts` and `recentAlerts` keep, nor a refreshed duplicate moving ahead of other alerts of its day.
- NdviData.SortOldestFirst: states sortedness and permutation, not stability; equal timestamps may come out in any order.
- NdviData.SortNewestFirst: states sortedness and permutation, not stability; equal timestamps may come out in any order.
- Divisions.ToLower: lowers ASCII letters only, not full Unicode case mapping.
- Divisions.FarmsByDivision: `page` and `limit` arrive as integers; the `NaN` of `parseInt` on a non-numeric parameter is not modelled.
- MapHelpers.GetVisibleFarms: a `null` farm list cannot occur, because sequences are never null; the empty list gives `[]` as in the source.
- Severity values are not validated by the source; a non-standard one is kept by name (`OtherSeverity`) and is not counted by the statistics. Alerts.TallyAlerts: the source's `alert.severity in stats.bySeverity` also accepts names inherited from `Object.prototype`, such as "constructor"; for those the source increments a non-numeric property, which the model does not capture, and it counts only the four standard names.

## Findings

| source | as written | input that shows it | evidently intended | confidence | as-written member | corrected member |
|---|---|---|---|---|---|---|
| services/ndviGenerator.js:139-149 | the recovery loop starts at `endIndex = min(len, len - startDay)`, which is negative when `startDay` exceeds the series length, and then reads `modifiedData[i].ndvi` at a negative index | a 61-point series and a flood with `startDay` 70 and `duration` 5: the loop starts at -9, and `modifiedData[-9]` is undefined | the recovery tail starts at `endIndex` clipped to 0, so it only touches points of the series | not executed | NdviGenerator.TailAsWrittenCounterexample | NdviGenerator.TailInSeries |
