# basirah MES dashboard — a Dafny model of its logic

This project models the logic of the basirah manufacturing-execution
dashboard, a React application backed by a Supabase table store. The model
covers the following parts.

- The shared alert store (`AlertContext`), with its four mutators. Its
  central one is `setAlertsList`, which reconciles a freshly synthesised
  candidate list with the stored alerts. It keeps the stored alerts, with
  their ids and timestamps, when nothing has changed semantically.
- The alerts page (`AlertsPage`): the four synthesis rules, the search,
  type filter and sort of the list, the per-type counts and the "time ago"
  label.
- The KPI computations of the production dashboard (`Dashboard`) and of the
  analytics page (`Analytics`), and the colour of each card. Both pages
  compute availability, performance, quality rate, OEE, downtime and related
  figures.
- The four data hooks (`UseWorkOrders`, `UseMachines`, `UseOperators`,
  `UseQualityChecks`). Each is a class holding a list, a `loading` flag and
  an `error` text, changed by fetch, create, update and delete. The table
  store's answer to each call is an input to the method (`Remote<T>`). The
  row converters and the field-by-field update payloads are functions.
- The operator form's skill editing and submission (`OperatorForm`). The
  form is a class whose methods change its fields.
- The list views: `OperatorList`, `MachineList`, `WorkOrderList` and
  `QualityControl`. The model covers their searches, drop-down filters,
  counters and small display rules.
- The inspector choice in `QualityCheckForm`.
- The three charts: the work-order status histogram, the machine
  efficiency bars, and the dashboard's machine status panel.

Helper modules:

- `Wrappers`: `Option`, `Result`, `Remote` and the error text a hook stores.
- `Text`: ASCII lower-casing, `includes`, `trim`, `parseInt`, number to
  string, and code-point order for `localeCompare`.
- `JsNumber`: `Math.round`, `Math.floor` and `Math.ceil` on exact reals.
- `Seqs`: filter, count, map and sum with their algebra.
- `StableSort`: `Array.prototype.sort` as a stable insertion sort. It is
  given once as a function and once as an in-place array method proved
  equal to it.
- `Metrics`: the percentage, OEE and colour-threshold arithmetic that the
  dashboard, analytics and list views share.
- `Domain`: the entities as the hooks hold them in memory.

Every remote call, every fresh uuid and every `Date.now()` reading is a
parameter. Dates are integer millisecond instants, and ratios are exact
reals.

The alert reconciliation follows the code, not a reading of it as
"replace with the candidates in their original order". JavaScript's `sort`
sorts `alertsWithIds` in place, so the list that replaces the stored one is
the candidates sorted by (type, message, source). `AlertContext.Reconcile`
and `AlertStore.SetAlertsList` return that sorted list.

## Model

| member | source | states |
|---|---|---|
| AlertContext.AlertStore.constructor | src/context/AlertContext.tsx:20 | The store starts with no alerts. |
| AlertContext.AlertStore.AddAlert | src/context/AlertContext.tsx:22-32 | The new alert, with the given type, message, source, fresh id and current time, goes in front of the unchanged old alerts. |
| AlertContext.AlertStore.RemoveAlert | src/context/AlertContext.tsx:34-36 | The store keeps, in order, exactly the alerts whose id differs from the argument (see WithoutId). |
| AlertContext.AlertStore.ClearAllAlerts | src/context/AlertContext.tsx:38-40 | The store is left empty. |
| AlertContext.AlertStore.SetAlertsList | src/context/AlertContext.tsx:42-78 | It sorts both lists in place with the comparator, then compares them. The new state is Reconcile of the old one, and it holds as many alerts as there are candidates, with the candidates' (type, message, source) triples counted with multiplicity. |
| AlertContext.WithoutId | src/context/AlertContext.tsx:35 | An order-keeping sub-list without the id that keeps every alert with another id as often as the list holds it. |
| AlertContext.WithoutAbsentId | src/context/AlertContext.tsx:34-36 | Removing an id that no alert carries changes nothing. |
| AlertContext.TypeName | src/context/AlertContext.tsx:51 | Each alert type has a non-empty name. |
| AlertContext.TypeNameInjective | src/context/AlertContext.tsx:51 | Different types have different names, so comparing names compares types. |
| AlertContext.DraftLeTotalPreorder | src/context/AlertContext.tsx:50-54 | The (type, message, source or '') comparator is total and transitive. |
| AlertContext.AlertLeTotalPreorder | src/context/AlertContext.tsx:58-62 | The same comparator on stored alerts is total and transitive. |
| AlertContext.WithIds | src/context/AlertContext.tsx:43-47 | Each candidate keeps its triple and receives the i-th fresh id and timestamp. |
| AlertContext.DraftsOfWithIds | src/context/AlertContext.tsx:43-47 | Stripping the ids and timestamps again gives back the candidates. |
| AlertContext.AnyDiffers | src/context/AlertContext.tsx:69-74 | True exactly when some position holds different triples. |
| AlertContext.AnyDiffersIffTriplesDiffer | src/context/AlertContext.tsx:69-74 | The positional `some` test is the same as inequality of the two triple lists. |
| AlertContext.SortedIncomingDrafts | src/context/AlertContext.tsx:50-54 | The sorted candidates' triples are the candidates' triples sorted, whatever ids and timestamps were drawn. |
| AlertContext.SortedExistingDrafts | src/context/AlertContext.tsx:58-62 | Sorting the stored alerts and taking their triples is the same as sorting their triples. |
| AlertContext.ReconcileLengthChange | src/context/AlertContext.tsx:65-67 | When the counts differ, the list becomes the sorted candidates. |
| AlertContext.ReconcileKeepsOrReplaces | src/context/AlertContext.tsx:65-76 | The result is either the old list itself or the sorted candidates. |
| AlertContext.SameSortedTriples | src/context/AlertContext.tsx:56-74 | The two sorted lists agree position by position exactly when the old triples and the candidates sort to the same sequence. |
| AlertContext.ReconcileContents | src/context/AlertContext.tsx:42-76 | Whichever branch is taken, the result has the candidates' length and their multiset of triples. |
| AlertContext.ReconcileSortedWhenReplaced | src/context/AlertContext.tsx:50-54 | Whenever the list is replaced, the new list is in comparator order. |
| AlertContext.ReconcileIdempotent | src/context/AlertContext.tsx:56-76 | A second reconciliation with the same candidates, with any fresh ids and timestamps, keeps the first result unchanged. |
| AlertContext.ReconcileKeepsSameContents | src/context/AlertContext.tsx:69-76 | With no empty-string sources, a list that already holds the candidates' triples (as a multiset) is kept as it is, ids and timestamps included. |
| AlertContext.SortedUnique | src/context/AlertContext.tsx:50-54 | Two comparator-sorted triple lists with the same multiset, none with an empty-string source, are equal. |
| AlertsPage.GenerateAlertsFromData | src/components/Alerts/AlertsPage.tsx:72-125 | The list built by pushing inside the four loops equals the rule-by-rule concatenation of error machines, maintenance machines, failed checks and overdue orders. |
| AlertsPage.PushMachineAlerts | src/components/Alerts/AlertsPage.tsx:76-93 | The two machine loops push one alert per machine in error and then one per machine in maintenance, each list in machine order. |
| AlertsPage.PushQualityAlerts | src/components/Alerts/AlertsPage.tsx:95-106 | The quality loop pushes the alerts of the failed checks, in order. |
| AlertsPage.PushOverdueAlerts | src/components/Alerts/AlertsPage.tsx:108-122 | The overdue loop pushes one warning per overdue order, in order. |
| AlertsPage.OverdueAlerts | src/components/Alerts/AlertsPage.tsx:115-122 | One overdue alert per overdue order, position by position. |
| AlertsPage.QualityAlertOfCheck | src/components/Alerts/AlertsPage.tsx:97-105 | A failed check yields no alert exactly when no work order has its id. Otherwise it yields one error alert naming the first matching order and the check type, from "Quality Control". |
| AlertsPage.QualityAlertOfLength | src/components/Alerts/AlertsPage.tsx:98-99 | A check yields one alert when an order matches and none otherwise. |
| AlertsPage.QualityAlertsCount | src/components/Alerts/AlertsPage.tsx:96-106 | The quality rule yields as many alerts as there are failed checks with a matching order. |
| AlertsPage.GeneratedCount | src/components/Alerts/AlertsPage.tsx:72-124 | The number of alerts is the sum of the four rules' counts. |
| AlertsPage.OverdueOrdersExact | src/components/Alerts/AlertsPage.tsx:110-113 | The overdue orders are, in order, exactly the orders due strictly before now and not completed, each as often as the input holds it. |
| AlertsPage.DaysOverdueBounds | src/components/Alerts/AlertsPage.tsx:116-119 | An overdue order is at least one day late. The count is the number of started days. It is 1, and the word singular, exactly when the order is at most one day late. |
| AlertsPage.OverdueThirtySixHours | src/components/Alerts/AlertsPage.tsx:116-120 | A pending order 36 hours late reads "2 days overdue!". |
| AlertsPage.OverdueTwentyHours | src/components/Alerts/AlertsPage.tsx:116-120 | An order 20 hours late reads "1 day overdue!". |
| AlertsPage.OverdueFiftyHours | src/components/Alerts/AlertsPage.tsx:110-120 | An in-progress order 50 hours late is overdue and reads "3 days overdue!". |
| AlertsPage.OrderIsTotalPreorder | src/components/Alerts/AlertsPage.tsx:160-171 | Each of the three sort orders (newest, oldest, type) is total and transitive. |
| AlertsPage.FilteredAlerts | src/components/Alerts/AlertsPage.tsx:153-171 | The displayed alerts are, as a multiset, exactly the alerts passing the search and the type filter: each shown one passes, none that passes is lost, and none is duplicated. |
| AlertsPage.FilteredAlertsKeepAll | src/components/Alerts/AlertsPage.tsx:154-159 | With an empty search and type 'all', every alert is shown. |
| AlertsPage.FilteredAlertsSorted | src/components/Alerts/AlertsPage.tsx:160-171 | The displayed list is in the chosen order, and alerts the order ranks equal (the same timestamp, or the same type under 'type') keep the order they are stored in. |
| AlertsPage.NewestFirst | src/components/Alerts/AlertsPage.tsx:162-163 | Under 'newest', timestamps never increase along the list. |
| AlertsPage.GetAlertStats | src/components/Alerts/AlertsPage.tsx:173-181 | Each figure counts the alerts of its type, and the four add up to the total. |
| AlertsPage.FormatTime | src/components/Alerts/AlertsPage.tsx:185-194 | "Just now" under a minute. Under an hour, the whole minutes elapsed. Under a day, the whole hours. A date from one day on. |
| Dashboard.DashboardQualityRate | src/components/Dashboard/Dashboard.tsx:39-41 | The pass share of the checks in [0, 100], and 100 with no checks. |
| Dashboard.RecentCompletedItemsSnoc | src/components/Dashboard/Dashboard.tsx:49-51 | One more order adds its completed quantity exactly when it is completed and updated within the last 24 hours. |
| Dashboard.CalculateMetrics | src/components/Dashboard/Dashboard.tsx:20-73 | activeWorkOrders counts the orders not completed. activeAlerts is the error machines plus the failed checks. Availability, quality and average efficiency are the exact figures rounded to one decimal, and downtime minutes the rounded downtime share of 480 minutes; availability and quality lie in [0, 100], downtime minutes in [0, 480]. Everything machine-based is 0 with no machines; quality is 100 with no checks. OEE is the rounded product of the three factors, and productionRate the rounded recent completions per hour. |
| Dashboard.CalculateMetricsOeeBounds | src/components/Dashboard/Dashboard.tsx:44 | With every efficiency a percentage, the shown OEE lies in [0, 100]. |
| Dashboard.ProductionRateNonNegative | src/components/Dashboard/Dashboard.tsx:47-52 | With non-negative completed quantities, the production rate is not negative. |
| Dashboard.AlertsColor | src/components/Dashboard/Dashboard.tsx:120 | Green exactly at 0 alerts, yellow at 1 or 2, red above. |
| Dashboard.Cards | src/components/Dashboard/Dashboard.tsx:75-123 | No cards while loading, otherwise six. Each card's colour follows its own thresholds: OEE 85/70, rate 100/50, quality 95/90, downtime 30/120 (lower is better), alerts 0/2; work orders are always blue. |
| Dashboard.AlertsCardGreen | src/components/Dashboard/Dashboard.tsx:59-61 | The alerts card is green exactly when no machine is in error and no check failed. |
| Analytics.OrdersInWindow | src/components/Analytics/Analytics.tsx:68-73 | Exactly the orders created inside the window, in order, each as often as the input holds it. |
| Analytics.ChecksInWindow | src/components/Analytics/Analytics.tsx:75-80 | Exactly the checks made inside the window, in order, each as often as the input holds it. |
| Analytics.AnalyticsQualityRate | src/components/Analytics/Analytics.tsx:94-96 | The pass share in [0, 100], and 0 with no checks. |
| Analytics.QualityRatesDisagreeOnlyWhenEmpty | src/components/Analytics/Analytics.tsx:96 | The dashboard and analytics quality rates agree exactly when there is at least one check. |
| Analytics.ProductionEfficiency | src/components/Analytics/Analytics.tsx:100-102 | 0 when nothing is planned; otherwise the figure times the plan is 100 times the completed quantity, so within the plan it lies in [0, 100] and is 100 when the plan is met exactly. |
| Analytics.ComputeKpis | src/components/Analytics/Analytics.tsx:83-126 | The order and operator counts come from the windowed orders and all operators; completed ≤ total and active ≤ total. Availability, downtime and performance are the rounded figures over all machines; quality is the windowed checks' pass rate and production efficiency the windowed orders' completion rate, each rounded to one decimal, and OEE uses the windowed checks. Availability, downtime and quality lie in [0, 100]; an empty window gives quality 0 and OEE 0. |
| Analytics.MachineFiguresIgnoreWindow | src/components/Analytics/Analytics.tsx:85-91 | Availability, performance and downtime do not depend on the date window. |
| Analytics.PassedSubtitle | src/components/Analytics/Analytics.tsx:299 | The "% passed" figure lies in [0, 100]. It is 0 for an empty window and otherwise the rounded quality rate. |
| Analytics.KpiColors | src/components/Analytics/Analytics.tsx:247-294 | Each card is green or red exactly at its thresholds: OEE 85/70, production 90/75, quality 95/90, availability 90/80, downtime 5/15 (lower is better). |
| Analytics.EmptyWindowQualityRed | src/components/Analytics/Analytics.tsx:96 | With no checks in the window, the quality card is red. |
| Metrics.Percentage | src/components/Dashboard/Dashboard.tsx:31 | The fallback when the whole is empty; otherwise the figure times the whole is 100 times the part, so a part of the whole lies in [0, 100], the whole gives 100 and an empty part 0. |
| Metrics.MachineStatusPartition | src/components/Dashboard/Dashboard.tsx:25-28 | The four status counts add up to the number of machines. |
| Metrics.Availability | src/components/Dashboard/Dashboard.tsx:31 | The running share in [0, 100], and 0 with no machines. |
| Metrics.AverageEfficiency | src/components/Dashboard/Dashboard.tsx:34-36 | The mean efficiency times the count is the sum, and it is 0 with no machines. |
| Metrics.AverageEfficiencyBounds | src/components/Dashboard/Dashboard.tsx:34-36 | The mean lies within any bounds that every efficiency (and 0) lies within. |
| Metrics.DowntimePercentage | src/components/Dashboard/Dashboard.tsx:54-56 | The share of machines in error or maintenance, in [0, 100], and 0 with no machines. |
| Metrics.AvailabilityPlusDowntime | src/components/Dashboard/Dashboard.tsx:25-56 | Availability plus downtime is at most 100, because running is disjoint from error and maintenance. |
| Metrics.Oee | src/components/Dashboard/Dashboard.tsx:44 | OEE times 10000 is the product of availability, performance and quality; with the three factors in [0, 100], OEE lies in [0, 100]. |
| Metrics.OeeOfZeroFactor | src/components/Analytics/Analytics.tsx:112 | A zero factor makes OEE, and its rounding, 0. |
| Metrics.OeeOfExample | src/components/Dashboard/Dashboard.tsx:44 | Factors 50, 45 and 90 give 20.25, shown as 20.3. |
| Metrics.RoundedPercent | src/components/Quality/QualityControl.tsx:47 | The share rounded to a whole percent: within half a percent of the exact share, in [0, 100], 100 for all and 0 for none. |
| Metrics.Round1Percent | src/components/Dashboard/Dashboard.tsx:67-70 | A percentage rounded to one decimal stays in [0, 100]. |
| Metrics.HigherIsBetter | src/components/Dashboard/Dashboard.tsx:85 | Green from the green threshold up, yellow from the yellow threshold up, red below. |
| Metrics.LowerIsBetter | src/components/Dashboard/Dashboard.tsx:114 | Green up to the green threshold, yellow up to the yellow threshold, red above. |
| Metrics.HigherIsBetterMonotone | src/components/Dashboard/Dashboard.tsx:106 | A higher value never gets a worse colour. |
| Metrics.LowerIsBetterAntitone | src/components/Dashboard/Dashboard.tsx:114 | A lower value never gets a worse colour. |
| UseWorkOrders.ConvertToWorkOrder | src/hooks/useWorkOrders.ts:11-24 | The id text parses back to the row's number, and every other field is copied. |
| UseWorkOrders.ConvertKeepsIdsDistinct | src/hooks/useWorkOrders.ts:12 | Rows with different ids become orders with different ids. |
| UseWorkOrders.UpdateData | src/hooks/useWorkOrders.ts:139-150 | The payload holds exactly the updatable fields the patch defines, and never id or the timestamps. |
| UseWorkOrders.BuildUpdateData | src/hooks/useWorkOrders.ts:139-150 | Building the payload one field at a time gives UpdateData. |
| UseWorkOrders.UpdateRoundTrip | src/hooks/useWorkOrders.ts:152-161 | Applying the payload to a row and converting gives the converted row with the patch applied. |
| UseWorkOrders.WorkOrderStore.constructor | src/hooks/useWorkOrders.ts:26-28 | The hook starts empty, loading, with no error. |
| UseWorkOrders.WorkOrderStore.Fetch | src/hooks/useWorkOrders.ts:32-92 | Loading always ends false. A failure keeps the list and records the error; no data empties the list; otherwise the rows are converted in order. |
| UseWorkOrders.WorkOrderStore.Create | src/hooks/useWorkOrders.ts:100-132 | Sends the draft's fields unchanged. On success the new order goes in front of the old list and is returned. On failure the list stays, the error is recorded and the failure is rethrown. |
| UseWorkOrders.WorkOrderStore.Update | src/hooks/useWorkOrders.ts:135-169 | The key is `parseInt(id)` and the payload is UpdateData. On success every order with the id is replaced by the returned one and the others stay where they were; a failure changes nothing but the error. |
| UseWorkOrders.WorkOrderStore.Delete | src/hooks/useWorkOrders.ts:172-189 | On success the orders with the id are filtered out; a failure changes nothing but the error. |
| UseWorkOrders.WorkOrderStore.GetWorkOrder | src/hooks/useWorkOrders.ts:192-194 | The first order in the list with the id (none before it has the id), and nothing exactly when none has it. |
| UseWorkOrders.DeleteRemovesId | src/hooks/useWorkOrders.ts:183 | After a delete no order has the id, the rest keep their order, and an absent id changes nothing. |
| UseWorkOrders.UpdateThenGet | src/hooks/useWorkOrders.ts:162 | After an update, looking the id up gives the returned order. |
| UseMachines.ConvertToMachine | src/hooks/useMachines.ts:11-23 | The order number and product come only from the joined order, with empty text read as missing. The assignment id maps empty to missing. The id parses back. |
| UseMachines.InsertData | src/hooks/useMachines.ts:91-99 | Create sends the assignment as given, with a missing one as null, and copies the other fields. |
| UseMachines.UpdateData | src/hooks/useMachines.ts:131-143 | The defined fields are sent. The assignment key is sent only when present in the patch, and then as null when its value is falsy. |
| UseMachines.BuildUpdateData | src/hooks/useMachines.ts:131-143 | Building the payload one field at a time gives UpdateData. |
| UseMachines.UpdateRoundTrip | src/hooks/useMachines.ts:145-161 | Applying the payload and converting gives the converted machine with the patch applied. |
| UseMachines.UnassignByKey | src/hooks/useMachines.ts:137-140 | A present key with a missing or empty value unassigns the machine; an absent key keeps the assignment. |
| UseMachines.EmptyAssignmentCreateVersusUpdate | src/hooks/useMachines.ts:95 | Create stores an empty order id as '' while update stores null; both read back as unassigned. |
| UseMachines.MachineStore.constructor | src/hooks/useMachines.ts:25-27 | The hook starts empty, loading, with no error. |
| UseMachines.MachineStore.Fetch | src/hooks/useMachines.ts:31-79 | Loading always ends false. A failure keeps the list, no data empties it, and rows are converted in order. |
| UseMachines.MachineStore.Create | src/hooks/useMachines.ts:87-124 | Sends InsertData. On success the machine goes in front; on failure nothing changes but the error. |
| UseMachines.MachineStore.Update | src/hooks/useMachines.ts:127-169 | Sends UpdateData to `parseInt(id)`. On success the machines with the id are replaced in place; on failure nothing changes but the error. |
| UseMachines.MachineStore.Delete | src/hooks/useMachines.ts:172-189 | On success the machines with the id are filtered out; on failure nothing changes but the error. |
| UseMachines.MachineStore.GetMachine | src/hooks/useMachines.ts:192-194 | The first machine in the list with the id (none before it has the id), and nothing exactly when none has it. |
| UseMachines.MachineStore.GetMachinesByStatus | src/hooks/useMachines.ts:197-199 | Exactly the machines with the status, in order, each as often as the list holds it. |
| UseMachines.StatusListsPartition | src/hooks/useMachines.ts:197-199 | The four status lists together are as long as the machine list. |
| UseOperators.ConvertToOperator | src/hooks/useOperators.ts:11-18 | The assignment is present exactly when the row's is non-empty. The id parses back, and the other fields are copied. |
| UseOperators.InsertData | src/hooks/useOperators.ts:79-85 | Create sends a falsy assignment as null. |
| UseOperators.UpdateData | src/hooks/useOperators.ts:110-117 | The assignment is sent only when defined, and '' is sent as null. |
| UseOperators.BuildUpdateData | src/hooks/useOperators.ts:110-117 | Building the payload one field at a time gives UpdateData. |
| UseOperators.UpdateRoundTrip | src/hooks/useOperators.ts:119-128 | Applying the payload and converting gives the converted operator with the patch applied. |
| UseOperators.UndefinedAssignmentKeepsAssignment | src/hooks/useOperators.ts:117 | A patch without an assignment leaves the stored assignment as it was. |
| UseOperators.OperatorStore.constructor | src/hooks/useOperators.ts:20-22 | The hook starts empty, loading, with no error. |
| UseOperators.OperatorStore.Fetch | src/hooks/useOperators.ts:26-67 | Loading always ends false. A failure keeps the list, no data empties it, and rows are converted in order. |
| UseOperators.OperatorStore.Create | src/hooks/useOperators.ts:75-103 | Sends InsertData. On success the operator goes in front; on failure nothing changes but the error. |
| UseOperators.OperatorStore.Update | src/hooks/useOperators.ts:106-136 | Sends UpdateData to `parseInt(id)`. On success the operators with the id are replaced in place; on failure nothing changes but the error. |
| UseOperators.OperatorStore.Delete | src/hooks/useOperators.ts:139-156 | On success the operators with the id are filtered out; on failure nothing changes but the error. |
| UseOperators.OperatorStore.GetOperator | src/hooks/useOperators.ts:159-161 | The first operator in the list with the id (none before it has the id), and nothing exactly when none has it. |
| UseOperators.OperatorStore.GetOperatorsByShift | src/hooks/useOperators.ts:164-166 | Exactly the operators on the shift, in order, each as often as the list holds it. |
| UseOperators.OperatorStore.GetAvailableOperators | src/hooks/useOperators.ts:169-171 | Exactly the operators without an assignment, in order, each as often as the list holds it. |
| UseOperators.AvailablePlusAssigned | src/hooks/useOperators.ts:169-171 | The available and the assigned operators together are all of them. |
| UseQualityChecks.InspectorOf | src/hooks/useQualityChecks.ts:17-24 | The joined operator becomes the inspector, and its id parses back. |
| UseQualityChecks.ConvertToQualityCheck | src/hooks/useQualityChecks.ts:11-27 | The inspector is set exactly when the join is present. Null or empty notes become ''. Both ids parse back. |
| UseQualityChecks.InsertData | src/hooks/useQualityChecks.ts:98-105 | Create sends the inspector as `parseInt` of its id and empty notes as null. |
| UseQualityChecks.UpdateData | src/hooks/useQualityChecks.ts:140-148 | Only defined fields are sent, the inspector parsed and empty notes as null. |
| UseQualityChecks.BuildUpdateData | src/hooks/useQualityChecks.ts:140-148 | Building the payload one field at a time gives UpdateData. |
| UseQualityChecks.UpdateRoundTrip | src/hooks/useQualityChecks.ts:150-169 | With a numeric inspector id, applying the payload and converting gives the converted check with the patch applied. |
| UseQualityChecks.InspectorIdRoundTrip | src/hooks/useQualityChecks.ts:16 | A stringified inspector id parses back to itself. |
| UseQualityChecks.QualityCheckStore.constructor | src/hooks/useQualityChecks.ts:29-31 | The hook starts empty, loading, with no error. |
| UseQualityChecks.QualityCheckStore.Fetch | src/hooks/useQualityChecks.ts:35-86 | Loading always ends false. A failure keeps the list, no data empties it, and rows are converted in order. |
| UseQualityChecks.QualityCheckStore.Create | src/hooks/useQualityChecks.ts:94-133 | Sends InsertData. On success the check goes in front; on failure nothing changes but the error. |
| UseQualityChecks.QualityCheckStore.Update | src/hooks/useQualityChecks.ts:136-177 | Sends UpdateData to `parseInt(id)`. On success the checks with the id are replaced in place; on failure nothing changes but the error. |
| UseQualityChecks.QualityCheckStore.Delete | src/hooks/useQualityChecks.ts:180-197 | On success the checks with the id are filtered out; on failure nothing changes but the error. |
| UseQualityChecks.QualityCheckStore.GetQualityCheck | src/hooks/useQualityChecks.ts:200-202 | The first check in the list with the id (none before it has the id), and nothing exactly when none has it. |
| UseQualityChecks.QualityCheckStore.GetQualityChecksByWorkOrder | src/hooks/useQualityChecks.ts:204-206 | Exactly the checks of the work order, in order, each as often as the list holds it. |
| OperatorForm.InitialData | src/components/Operators/OperatorForm.tsx:13-33 | Blank fields for a new operator. For an existing one, its name, employee id, shift and skills, and its assignment text when it has one, empty exactly when it has none. |
| OperatorForm.WithSkill | src/components/Operators/OperatorForm.tsx:210-215 | The skill ends up in the list: appended when absent, the list unchanged when present. |
| OperatorForm.WithSkillNoDuplicates | src/components/Operators/OperatorForm.tsx:52 | Offering a skill keeps a duplicate-free list duplicate-free. |
| OperatorForm.WithoutSkill | src/components/Operators/OperatorForm.tsx:64 | Every copy of the skill goes; every other skill stays, in order and as often as before; no duplicates appear. |
| OperatorForm.SubmitData | src/components/Operators/OperatorForm.tsx:37-40 | An empty assignment is submitted as undefined; the other fields are submitted unchanged. |
| OperatorForm.OperatorFormState.constructor | src/components/Operators/OperatorForm.tsx:13-33 | The form opens with InitialData and an empty skill box. |
| OperatorForm.OperatorFormState.AddSkill | src/components/Operators/OperatorForm.tsx:51-59 | A non-blank trimmed input that is not yet in the list is appended, and the box is cleared. Otherwise nothing changes. The list stays duplicate-free. |
| OperatorForm.OperatorFormState.AddCommonSkill | src/components/Operators/OperatorForm.tsx:209-216 | A common skill is appended only when absent; the list stays duplicate-free. |
| OperatorForm.OperatorFormState.RemoveSkill | src/components/Operators/OperatorForm.tsx:61-66 | The skills become WithoutSkill of the old ones, and the box is untouched. |
| OperatorForm.OperatorFormState.Submit | src/components/Operators/OperatorForm.tsx:35-41 | Hands over SubmitData of the fields; the assignment is undefined exactly when the field is empty. |
| OperatorForm.ClearingAssignmentInFormKeepsIt | src/components/Operators/OperatorForm.tsx:39 | Clearing the assignment in the form sends no assignment, and the stored assignment reads back unchanged after the update. |
| OperatorForm.ClearedOperatorStillAssigned | src/hooks/useOperators.ts:117 | So an assigned operator edited with "No assignment" is still assigned. |
| OperatorList.FilteredOperators | src/components/Operators/OperatorList.tsx:24-33 | An order-keeping sub-list. Its members pass the search, shift and assignment tests, and each operator that passes appears as often as in the input. |
| OperatorList.NoFilterShowsAll | src/components/Operators/OperatorList.tsx:24-33 | An empty search with both filters on 'all' shows every operator. |
| OperatorList.AssignmentFiltersSplit | src/components/Operators/OperatorList.tsx:29-31 | 'assigned' and 'available' are disjoint, and together they list what 'all' lists. |
| OperatorList.AssignmentFilterMatchesCounters | src/components/Operators/OperatorList.tsx:29-41 | With no search and any shift, the two filters list as many operators as the two counters show. |
| OperatorList.GetOperatorStats | src/components/Operators/OperatorList.tsx:35-44 | Each shift figure counts the operators on that shift, and the three add up to the total. `available`, computed as total minus assigned, is exactly the number of unassigned operators. |
| OperatorList.SkillChips | src/components/Operators/OperatorList.tsx:273-285 | The first at most three skills, plus a "+n more" chip exactly when there are more than three, n counting the rest. |
| MachineList.FilteredMachines | src/components/Machines/MachineList.tsx:24-30 | An order-keeping sub-list. Its members pass the search and the status filter, and each machine that passes appears as often as in the input. |
| MachineList.NoFilterShowsAll | src/components/Machines/MachineList.tsx:24-30 | An empty search with status 'all' shows every machine. |
| MachineList.GetMachineStats | src/components/Machines/MachineList.tsx:32-43 | The status counts add up to the total. The average is 0 with no machines and otherwise the rounded mean. |
| MachineList.AverageEfficiencyIsPercent | src/components/Machines/MachineList.tsx:38-40 | With every efficiency a percentage, the rounded mean lies in [0, 100]. |
| MachineList.StatusFilterMatchesCounter | src/components/Machines/MachineList.tsx:24-37 | With no search, each status filter lists as many machines as its counter shows. |
| WorkOrderList.FilteredOrders | src/components/WorkOrders/WorkOrderList.tsx:41-46 | An order-keeping sub-list. Its members pass the search and the status filter, and each order that passes appears as often as in the input. |
| WorkOrderList.NoFilterShowsAll | src/components/WorkOrders/WorkOrderList.tsx:41-46 | An empty search with status 'all' shows every order. |
| WorkOrderList.ProgressPercentage | src/components/WorkOrders/WorkOrderList.tsx:48-50 | With a zero plan: +Infinity, -Infinity or NaN, by the sign of the completed count. Otherwise the rounded, unclamped percentage. |
| WorkOrderList.ProgressOfMultiple | src/components/WorkOrders/WorkOrderList.tsx:48-50 | Completing k times the plan shows exactly 100k percent, so 100 at the plan. |
| WorkOrderList.ProgressMonotone | src/components/WorkOrders/WorkOrderList.tsx:48-50 | For a positive plan, more completed never shows less progress. |
| WorkOrderList.ProgressWithinPlan | src/components/WorkOrders/WorkOrderList.tsx:48-50 | Within the plan the bar is in [0, 100]; at or beyond it, at least 100. |
| QualityControl.GetWorkOrderInfo | src/components/Quality/QualityControl.tsx:23-25 | The first order in the list with the id (none before it has the id), and nothing exactly when none has it. |
| QualityControl.FilteredChecks | src/components/Quality/QualityControl.tsx:27-34 | An order-keeping sub-list. Its members pass the search and the result filter, and each check that passes appears as often as in the input. |
| QualityControl.NoFilterShowsAll | src/components/Quality/QualityControl.tsx:27-34 | An empty search with result 'all' shows every check. |
| QualityControl.MissingOrderMatchesByTypeOnly | src/components/Quality/QualityControl.tsx:28-31 | A check whose order is not loaded matches the search exactly when its type does. |
| QualityControl.GetQualityStats | src/components/Quality/QualityControl.tsx:36-49 | The result counts add up to the total. The pass rate is 0 with no checks and otherwise the rounded pass share in [0, 100]. |
| QualityControl.InspectorCells | src/components/Quality/QualityControl.tsx:246-258 | With an inspector: the name, or "Unknown" when it is empty; the employee id, or "N/A" when it is empty; the shift name. Without one: "Unknown", "N/A", "N/A". No cell is empty. |
| QualityControl.ShiftName | src/components/Quality/QualityControl.tsx:254-255 | Every shift has a non-empty name. |
| QualityCheckForm.QualityInspectors | src/components/Quality/QualityCheckForm.tsx:65-71 | Exactly the operators with a skill whose lower case contains "quality", "inspection" or "testing", in order, each as often as the input holds it. |
| QualityCheckForm.AvailableInspectors | src/components/Quality/QualityCheckForm.tsx:74 | The quality inspectors when there are any, otherwise every operator; never empty when there are operators. |
| QualityCheckForm.QualityHintExactlyWhenFiltered | src/components/Quality/QualityCheckForm.tsx:151-155 | The hint shows exactly when some operator qualifies, that is exactly when the choice is restricted to inspectors. |
| QualityCheckForm.CommonSkillsThatQualify | src/components/Operators/OperatorForm.tsx:75-100 | "Quality Control", "Testing" and "Safety Inspection" are one-click skills that qualify an operator as an inspector. |
| WorkOrderStatusChart.StatusCount | src/components/Analytics/WorkOrderStatusChart.tsx:37-40 | A status's count never exceeds the number of orders. |
| WorkOrderStatusChart.StatusCountIsFilterCount | src/components/Analytics/WorkOrderStatusChart.tsx:37-40 | The accumulated count is the number of orders with the status. |
| WorkOrderStatusChart.FirstOccurrences | src/components/Analytics/WorkOrderStatusChart.tsx:42 | The record's keys: no duplicates, and exactly the statuses that occur. |
| WorkOrderStatusChart.FirstOccurrenceOrder | src/components/Analytics/WorkOrderStatusChart.tsx:37-42 | Keys are in order of first occurrence. |
| WorkOrderStatusChart.KeysCountPositive | src/components/Analytics/WorkOrderStatusChart.tsx:37-42 | Every key counts at least one order. |
| WorkOrderStatusChart.Tally | src/components/Analytics/WorkOrderStatusChart.tsx:38 | One reduce step: a new status becomes the last key with count 1, and a known one counts one more. |
| WorkOrderStatusChart.StatusCounts | src/components/Analytics/WorkOrderStatusChart.tsx:37-40 | The loop builds keys in first-occurrence order, with each count equal to the number of orders with that status and at least 1. |
| WorkOrderStatusChart.CountsSumToLength | src/components/Analytics/WorkOrderStatusChart.tsx:37-47 | The counts of the keys add up to the number of orders. |
| WorkOrderStatusChart.SliceFor | src/components/Analytics/WorkOrderStatusChart.tsx:43-46 | A slice carries the status label, its colour, its count, and the rounded percentage of the orders it counts, which lies in [0, 100]. |
| WorkOrderStatusChart.Slices | src/components/Analytics/WorkOrderStatusChart.tsx:42-47 | One slice per key, in key order. |
| WorkOrderStatusChart.ChartData | src/components/Analytics/WorkOrderStatusChart.tsx:35-49 | The demonstration slices with no orders. Otherwise one slice per status that occurs, in order of first occurrence, each with its status colour, counting at least one order, with the rounded share of all orders as percentage. |
| WorkOrderStatusChart.CompletedOrders | src/components/Analytics/WorkOrderStatusChart.tsx:89 | 0 without a "Completed" slice; with exactly one such slice, its value. |
| WorkOrderStatusChart.SlicesSumToLength | src/components/Analytics/WorkOrderStatusChart.tsx:88 | For real orders, the slices add up to the number of orders. |
| WorkOrderStatusChart.StatusLabelCompleted | src/components/Analytics/WorkOrderStatusChart.tsx:19 | Only the completed status is labelled "Completed". |
| WorkOrderStatusChart.CompletedSliceCountsCompleted | src/components/Analytics/WorkOrderStatusChart.tsx:89 | The completed figure is the number of completed orders. |
| WorkOrderStatusChart.CompletionRateOfOrders | src/components/Analytics/WorkOrderStatusChart.tsx:88-90 | For real orders, the completion rate is the completed share rounded to a whole percent. |
| WorkOrderStatusChart.MockChart | src/components/Analytics/WorkOrderStatusChart.tsx:24-31 | The demonstration data totals 100 orders with a 45% completion rate. |
| MachineEfficiencyChart.ToBar | src/components/Analytics/MachineEfficiencyChart.tsx:26-29 | A bar carries the machine's name, efficiency and status. |
| MachineEfficiencyChart.MoreEfficientIsTotalPreorder | src/components/Analytics/MachineEfficiencyChart.tsx:30 | The `b.efficiency - a.efficiency` comparator is total and transitive. |
| MachineEfficiencyChart.ChartData | src/components/Analytics/MachineEfficiencyChart.tsx:25-31 | A permutation of the machines' bars (of the demonstration bars when there are none), by efficiency not increasing; ChartDataStable fixes the order of ties. |
| MachineEfficiencyChart.ChartDataStable | src/components/Analytics/MachineEfficiencyChart.tsx:25-31 | Bars of equal efficiency keep the order of the machines (or of the demonstration bars) they came from. |
| MachineEfficiencyChart.ChartDataIsMachines | src/components/Analytics/MachineEfficiencyChart.tsx:25-30 | For real machines there is one bar per machine, every machine's bar appears, and every bar is some machine's. |
| MachineEfficiencyChart.GetBarColor | src/components/Analytics/MachineEfficiencyChart.tsx:33-39 | Red for error and amber for maintenance whatever the efficiency. Otherwise green from 90, amber from 75, red below. |
| MachineEfficiencyChart.BarColorMonotone | src/components/Analytics/MachineEfficiencyChart.tsx:36-38 | For running or idle machines, more efficiency never turns green off or red on. |
| MachineEfficiencyChart.PerformanceCounts | src/components/Analytics/MachineEfficiencyChart.tsx:109-115 | The high-performer and need-attention counts are disjoint, at most the bar count together, and unchanged by the sort. |
| MachineStatusPanel.GetMachineStats | src/components/Dashboard/MachineStatus.tsx:18-26 | The status counts add up to the total. |
| MachineStatusPanel.SameCountsAsMachineList | src/components/Dashboard/MachineStatus.tsx:18-26 | The panel shows the same counts as the machine list. |
| MachineStatusPanel.ListedMachines | src/components/Dashboard/MachineStatus.tsx:41 | The first six machines in order, or all of them when there are fewer. |
| MachineStatusPanel.RowOf | src/components/Dashboard/MachineStatus.tsx:48-60 | The subtitle is "Job: {order}" when an order is set, else the status label. The efficiency line is present exactly for running machines. |
| MachineStatusPanel.Rows | src/components/Dashboard/MachineStatus.tsx:41-60 | Six rows, or one per machine when there are fewer; the i-th row is the i-th machine's. |
| MachineStatusPanel.EfficiencyLinesCountRunning | src/components/Dashboard/MachineStatus.tsx:58-60 | Over all machines, the efficiency lines number exactly the running machines. |
| StableSort.SortBy | src/context/AlertContext.tsx:50-54 | `sort` keeps the length and the multiset of elements. |
| StableSort.SortBySorted | src/context/AlertContext.tsx:50-54 | With a total, transitive comparator, the result is in order. |
| StableSort.SortByStable | src/context/AlertContext.tsx:50-54 | The sort is stable: for any element, the elements that compare equal to it both ways come out in their input order. |
| StableSort.SortByIdempotent | src/context/AlertContext.tsx:58-62 | Sorting a sorted list changes nothing. |
| StableSort.SortByMap | src/context/AlertContext.tsx:50-62 | When the comparator only looks at a projection, sorting commutes with the projection. |
| StableSort.SortInPlace | src/context/AlertContext.tsx:50 | The array's new contents are SortBy of its old contents. |
| Text.Trim | src/components/Operators/OperatorForm.tsx:52 | A block of the input with no whitespace at either end and only whitespace before and after it in the input, empty exactly when the input is all whitespace. |
| Text.NonEmpty | src/hooks/useOperators.ts:17 | `s \|\| undefined`: present exactly when the text is present and non-empty. |
| Text.ParseInt | src/hooks/useWorkOrders.ts:155 | `parseInt` fails exactly when the text does not start with a digit. |
| Text.ParseIntOfNatToString | src/hooks/useWorkOrders.ts:12 | A stringified id parses back to itself. |
| Text.NatToStringInjective | src/hooks/useWorkOrders.ts:12 | Distinct numeric ids give distinct string ids. |
| Text.LexLeTotal | src/components/Alerts/AlertsPage.tsx:167 | The code-point order that stands for `localeCompare` is total. |
| Text.LexLeTransitive | src/components/Alerts/AlertsPage.tsx:167 | That order is transitive. |
| JsNumber.Round | src/components/Dashboard/Dashboard.tsx:52 | `Math.round` lands within half of its argument, halves going up. |
| JsNumber.Round1 | src/components/Dashboard/Dashboard.tsx:64 | Rounding to one decimal gives a whole number of tenths within 0.05 of the argument, halves going up. |
| JsNumber.CeilDiv | src/components/Alerts/AlertsPage.tsx:116 | The least whole quotient not below the exact one. |
| JsNumber.FloorDiv | src/components/Alerts/AlertsPage.tsx:188 | The greatest whole quotient not above the exact one. |
| Domain.WorkOrderWithId | src/hooks/useWorkOrders.ts:193 | `find`: the first order with the id, and nothing exactly when none has it. |

## Left out

- The Supabase client and every network call: each answer is an input to the method (`Remote<T>`), so the server-side select, join, ordering and filtering are not modelled. The fetch order (`created_at` or `checked_at` descending) is whatever the answer holds.
- Console logging, `import.meta.env` checks and the fetch hooks' connection test: they have no effect on state.
- React scheduling: the effects, the memoisation, and the 60-second timer that re-runs alert synthesis. One synthesis pass is a function of machines, checks, orders and the current time, and AlertContext.ReconcileIdempotent covers repeated passes over the same data.
- `uuidv4()` and `Date.now()`: fresh ids and timestamps are parameters.
- Date parsing and formatting (`new Date(string)`, `toLocaleDateString`, date-fns): every date is an integer millisecond instant, and the analytics date window is given as two instants.
- The mock data: the random production charts are left out, and the demonstration bars of the machine efficiency chart are a parameter.
- MachineEfficiencyChart's `averageEfficiency` (src/components/Analytics/MachineEfficiencyChart.tsx:55-57): it is the rounded mean of the bars, the same computation MachineList.GetMachineStats models.
- Presentation with no logic: the sidebar, the app shell, the KPI and metric cards, the alert banner, icons and styles.
- The work-order and machine forms' field plumbing: number parsing and ISO date round-trips.
- The `useAlerts` error when it is used outside its provider, which is a React context concern.
- JsNumber.Round: works on exact reals, so the error of double-precision division (a value just below a rounding boundary) is not modelled; JsNumber.Round1, JsNumber.CeilDiv and JsNumber.FloorDiv likewise.
- Text.ToLower: lowers ASCII letters only, not the rest of Unicode.
- Text.Trim: removes ASCII whitespace only, not the other Unicode spaces.
- Text.LexLeTotal: `localeCompare` is modelled as code-point lexicographic order, not locale collation; Text.LexLeTransitive likewise.
- Text.ParseInt: only unsigned decimal text is modelled. Leading whitespace, signs and radix prefixes never occur in the ids these hooks stringify.
- AlertContext.ReconcileKeepsSameContents: assumes no stored or candidate alert has the empty string as its source. The comparator reads a missing source as '', but the diff tells the two apart, so with such sources an unchanged list can be replaced by an equal one with new ids. AlertContext.SortedUnique carries the same assumption.
