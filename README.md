# TopServe delivery operations — a Dafny model of the core

The system is a delivery-operations dashboard. An Express server keeps every record in an
in-memory store and exposes it through a REST API. A React client shows deliveries, agents on a
live map, and a navigation sidebar. This project models:

- **the in-memory store** (`MemStorage`). It has eight ordered tables (users, branches, agents,
  customers, deliveries, staff, leave requests, attendance) and one id counter that every kind of
  record shares. The model covers its sample data and every create, get, list, find-first, update
  and delete operation. It is a Dafny `class` whose fields are the tables, each an ordered
  sequence of `(key, record)` entries with the semantics of a JavaScript `Map`: setting an
  existing key keeps its position, a new key is appended, and iteration follows insertion order;
- **the API's own decisions**: the dashboard metrics, the upper-casing invoice search, and the
  status code (200/201/400/404/500) each handler answers with for what the store returned;
- **three client components' view logic**: the live map's agent/delivery join, package counts,
  filters, badges, markers and marker positions; the delivery table's lookups, status badge, ETA
  and row limit; and the sidebar's rule for the highlighted item.

Modules: `Wrappers` (Option, Result), `Collections` (first match, filter), `Text` (ASCII upper
case, decimal numerals, the "a/b" ratio), `OrderedTable` (the `Map` model), `Schema` (record
shapes, insert shapes, patches and merging), `Storage` (the store), `Routes`, `LiveTrackingMap`,
`DeliveryTable` and `Sidebar`.

Timestamps are integer milliseconds, and the current instant is a parameter (`now`). Decimal
columns (rating, amounts, pay) are opaque strings. A nullable column, or a column with a database
default, is an `Option`, because the in-memory store applies no defaults.

## Model

| member | source | states |
|---|---|---|
| Text.ToUpper | server/routes.ts:183 | `toUpperCase` on ASCII: same length; each character is upper-cased when it is a lower-case letter and otherwise kept |
| Text.ToUpperNormalises | server/routes.ts:183 | an upper-cased string has no lower-case letter; upper-casing is idempotent; a string is its own upper case exactly when it has no lower-case letter |
| Text.ToUpperEqualIff | server/routes.ts:183-184 | two strings have the same upper case exactly when they are equal ignoring case |
| Text.FormatRatio | server/routes.ts:24 | the `${a}/${b}` text parses back to exactly the pair (a, b) |
| OrderedTable.Get | server/storage.ts:210-212 | `Map.get`: absent exactly when the key is not in the table, else a value stored under that key |
| OrderedTable.Set | server/storage.ts:224-225 | `Map.set`: the key then maps to the value and other keys are unaffected; a new key is appended at the end; an existing key keeps its position with only its value replaced; keys stay distinct |
| OrderedTable.Delete | server/storage.ts:229-231 | `Map.delete`: the key is gone, other keys map as before, an absent key leaves the table as it was, and a present key's entry is cut out in place |
| OrderedTable.ValuesAreGets | server/storage.ts:206-208 | `Array.from(map.values())`: the i-th listed value is what a lookup of the i-th key returns |
| Schema.NewUser | server/storage.ts:182-187 | the created user keeps the username and password given; id, role "admin" and branch 1 are stamped over them |
| Schema.NewBranch | server/storage.ts:198-203 | the created branch keeps every field given; the id is stamped |
| Schema.NewAgent | server/storage.ts:214-219 | the created agent keeps every field given; id and `createdAt = now` are stamped |
| Schema.NewCustomer | server/storage.ts:242-247 | the created customer keeps every field given; id and `registeredAt = now` are stamped |
| Schema.NewDelivery | server/storage.ts:262-267 | the created delivery keeps every field given except `completedAt`, which is null; id and `createdAt = now` are stamped |
| Schema.NewStaff | server/storage.ts:290-295 | the created staff member keeps every field given; id and `hiredAt = now` are stamped |
| Schema.NewLeaveRequest | server/storage.ts:314-319 | the created request keeps every field given except `reviewedAt`, which is null; id and `requestedAt = now` are stamped |
| Schema.NewAttendance | server/storage.ts:338-343 | the created attendance record keeps every field given; the id is stamped |
| Schema.MergeAgent | server/storage.ts:224 | `{ ...record, ...patch }`: an empty patch changes nothing; a patch naming every field yields exactly the patch's values; a status-only patch changes the status alone, even to null |
| Schema.MergeAgentTwice | server/storage.ts:221-227 | two updates in a row equal one update with the fields of the second patch over those of the first; repeating an update changes nothing more |
| Schema.MergeDelivery | server/storage.ts:272 | `{ ...record, ...patch }`: an empty patch changes nothing; a patch naming every field yields exactly the patch's values; a status-only patch changes the status alone, even to null |
| Schema.MergeDeliveryTwice | server/storage.ts:269-275 | two updates in a row equal one update with the fields of the second patch over those of the first; repeating an update changes nothing more |
| Schema.MergeStaff | server/storage.ts:300 | `{ ...record, ...patch }`: an empty patch changes nothing; a patch naming every field yields exactly the patch's values; an isActive-only patch changes that flag alone, even to null |
| Schema.MergeStaffTwice | server/storage.ts:297-303 | two updates in a row equal one update with the fields of the second patch over those of the first; repeating an update changes nothing more |
| Schema.MergeLeaveRequest | server/storage.ts:324 | `{ ...record, ...patch }`: an empty patch changes nothing; a patch naming every field yields exactly the patch's values; a status-only patch changes the status alone, even to null |
| Schema.MergeLeaveRequestTwice | server/storage.ts:321-327 | two updates in a row equal one update with the fields of the second patch over those of the first; repeating an update changes nothing more |
| Schema.MergeAttendance | server/storage.ts:348 | `{ ...record, ...patch }`: an empty patch changes nothing; a patch naming every field yields exactly the patch's values; a clockOut-only patch changes the clock-out time alone, even to null |
| Schema.MergeAttendanceTwice | server/storage.ts:345-351 | two updates in a row equal one update with the fields of the second patch over those of the first; repeating an update changes nothing more |
| Storage.MemStorage.constructor | server/storage.ts:69-82 | a new store holds exactly the sample data, with no users, leave requests or attendance, and its counter at 10 |
| Storage.MemStorage.InitializeSampleData | server/storage.ts:84-171 | loads two branches, four customers, three agents, three deliveries and two staff members under ids 1-4, and sets the counter to 10 |
| Storage.MemStorage.NextId | server/storage.ts:183 | `currentId++`: returns the counter, advances it by one, changes nothing else, and the id is used by no table |
| Storage.MemStorage.GetUser | server/storage.ts:174-176 | undefined exactly when no user has the id, else the one stored under it |
| Storage.MemStorage.GetUserByUsername | server/storage.ts:178-180 | the first user in insertion order with exactly that username, undefined exactly when there is none |
| Storage.MemStorage.CreateUser | server/storage.ts:182-187 | the user takes the next id from the shared counter, which is fresh; it is stored and returned; only the user table (appended) and the counter change |
| Storage.MemStorage.GetBranches | server/storage.ts:190-192 | every branch in insertion order, each equal to the lookup of its key |
| Storage.MemStorage.GetBranch | server/storage.ts:194-196 | undefined exactly when no branch has the id, else the one stored under it |
| Storage.MemStorage.CreateBranch | server/storage.ts:198-203 | fresh id from the shared counter; the branch is stored and returned; only the branch table and the counter change |
| Storage.MemStorage.GetAgents | server/storage.ts:206-208 | every agent in insertion order, each equal to the lookup of its key |
| Storage.MemStorage.GetAgent | server/storage.ts:210-212 | undefined exactly when no agent has the id, else the one stored under it |
| Storage.MemStorage.CreateAgent | server/storage.ts:214-219 | fresh id from the shared counter; the agent is stored and returned; only the agent table and the counter change |
| Storage.MemStorage.UpdateAgent | server/storage.ts:221-227 | a missing id fails with "Agent not found" and changes nothing; otherwise the merged agent is stored under the same key, in the same position, and returned; nothing else changes |
| Storage.MemStorage.DeleteAgent | server/storage.ts:229-231 | true exactly when the id was present; afterwards it is absent, other agents are as before, and the counter is unchanged |
| Storage.MemStorage.GetCustomers | server/storage.ts:234-236 | every customer in insertion order, each equal to the lookup of its key |
| Storage.MemStorage.GetCustomer | server/storage.ts:238-240 | undefined exactly when no customer has the id, else the one stored under it |
| Storage.MemStorage.CreateCustomer | server/storage.ts:242-247 | fresh id from the shared counter; the customer is stored and returned; only the customer table and the counter change |
| Storage.MemStorage.GetDeliveries | server/storage.ts:250-252 | every delivery in insertion order, each equal to the lookup of its key |
| Storage.MemStorage.GetDelivery | server/storage.ts:254-256 | undefined exactly when no delivery has the id, else the one stored under it |
| Storage.MemStorage.GetDeliveryByInvoice | server/storage.ts:258-260 | the first delivery in insertion order whose invoice number is exactly the one given, undefined exactly when there is none |
| Storage.MemStorage.CreateDelivery | server/storage.ts:262-267 | fresh id from the shared counter; the delivery is stored and returned; only the delivery table and the counter change |
| Storage.MemStorage.UpdateDelivery | server/storage.ts:269-275 | a missing id fails with "Delivery not found" and changes nothing; otherwise the merged delivery replaces the old one in place and is returned |
| Storage.MemStorage.DeleteDelivery | server/storage.ts:277-279 | true exactly when the id was present; afterwards it is absent, other deliveries are as before, and the counter is unchanged |
| Storage.MemStorage.GetStaff | server/storage.ts:282-284 | every staff member in insertion order, each equal to the lookup of its key |
| Storage.MemStorage.GetStaffMember | server/storage.ts:286-288 | undefined exactly when no staff member has the id, else the one stored under it |
| Storage.MemStorage.CreateStaff | server/storage.ts:290-295 | fresh id from the shared counter; the staff member is stored and returned; only the staff table and the counter change |
| Storage.MemStorage.UpdateStaff | server/storage.ts:297-303 | a missing id fails with "Staff member not found" and changes nothing; otherwise the merged record replaces the old one in place and is returned |
| Storage.MemStorage.GetLeaveRequests | server/storage.ts:306-308 | every leave request in insertion order, each equal to the lookup of its key |
| Storage.MemStorage.GetLeaveRequest | server/storage.ts:310-312 | undefined exactly when no leave request has the id, else the one stored under it |
| Storage.MemStorage.CreateLeaveRequest | server/storage.ts:314-319 | fresh id from the shared counter; the request is stored and returned; only the leave-request table and the counter change |
| Storage.MemStorage.UpdateLeaveRequest | server/storage.ts:321-327 | a missing id fails with "Leave request not found" and changes nothing; otherwise the merged request replaces the old one in place and is returned |
| Storage.MemStorage.GetAttendance | server/storage.ts:330-332 | every attendance record in insertion order, each equal to the lookup of its key |
| Storage.MemStorage.GetAttendanceByStaff | server/storage.ts:334-336 | exactly the attendance records with that staff id, each as often as it is stored, in insertion order |
| Storage.MemStorage.CreateAttendance | server/storage.ts:338-343 | fresh id from the shared counter; the record is stored and returned; only the attendance table and the counter change |
| Storage.MemStorage.UpdateAttendance | server/storage.ts:345-351 | a missing id fails with "Attendance record not found" and changes nothing; otherwise the merged record replaces the old one in place and is returned |
| Storage.SharedCounterScenario | server/storage.ts:170 | on a new store, a branch, then an agent, then a customer get ids 10, 11 and 12 |
| Storage.NoReuseScenario | server/storage.ts:229-231 | after deleting sample agent 1 and then new agent 10, the next agent gets 11, not a deleted id |
| Routes.Metrics | server/routes.ts:17-28 | `activeAgents` reads back as (agents not offline, agents flagged active); each delivery count is the number of deliveries with exactly that status; the three together never exceed the number of deliveries |
| Routes.MetricsCountNewDelivery | server/routes.ts:19-21 | one more delivery raises the count of its own status by one if that status is pending, active or overdue, and leaves the other counts and the agent ratio alone |
| Routes.MetricsIgnoreOtherStatuses | server/routes.ts:19-21 | a delivery that is completed, cancelled or has any other status leaves every metric unchanged |
| Routes.AgentCountsIndependent | server/routes.ts:17-18 | an agent that is not offline but not flagged active raises the numerator by one and leaves the denominator as it was |
| Routes.SeededMetrics | server/routes.ts:14-28 | on the sample data the metrics are "2/3", 1 pending, 1 active and 1 overdue |
| Routes.MetricsOfThree | server/routes.ts:17-28 | two of three agents not offline, all three flagged active, and deliveries overdue, active and pending give "2/3", 1, 1, 1 |
| Routes.StoreMetrics | server/routes.ts:14-24 | on a store, the ratio counts the stored agents that are not offline over those flagged active, each status count is the number of stored deliveries with exactly that status, and together they never exceed the number of stored deliveries |
| Routes.SeededMetricsScenario | server/routes.ts:12-28 | a newly constructed store reports "2/3", 1, 1, 1 |
| Routes.LookupResponse | server/routes.ts:144-149 | 404 exactly when the lookup found nothing, else 200 with the record |
| Routes.GetDeliveryRoute | server/routes.ts:141-153 | GET delivery by id answers 404 exactly when the id is not stored, else 200 with the stored delivery |
| Routes.SearchDeliveries | server/routes.ts:181-193 | 404 exactly when no invoice equals the upper-cased query; a 200 answer carries exactly the store's first delivery with the upper-cased invoice number |
| Routes.SearchIgnoresCase | server/routes.ts:183-184 | queries equal up to letter case get the same answer |
| Routes.SearchFindsUpperCaseInvoice | server/routes.ts:183-189 | a stored invoice without lower-case letters is found by every query equal to it up to case |
| Routes.SearchNeverFindsLowerCase | server/routes.ts:183-189 | a search never answers with an invoice that contains a lower-case letter |
| Routes.DeleteResponse | server/routes.ts:96-101 | 404 "Agent not found" exactly when nothing was removed; 200 "Agent deleted successfully" when something was |
| Routes.DeleteAgentRoute | server/routes.ts:93-105 | DELETE agent answers 200 "Agent deleted successfully" when the id was stored and 404 "Agent not found" exactly when it was absent, and the store loses only that agent |
| Routes.UpdateResponse | server/routes.ts:82-91 | 500 exactly when the store failed, else 200 with the updated record |
| Routes.CreateResponse | server/routes.ts:44-56 | 201 with the record exactly when one was created, else 400 with the validation message |
| Routes.PostBranch | server/routes.ts:44-56 | a rejected body answers 400 "Invalid branch data" and changes nothing; an accepted one answers 201 with the body stamped as a new branch under the counter's id; the store then holds exactly the old branches plus that record appended under that id, the counter one higher, and every other table unchanged |
| Routes.PostAgent | server/routes.ts:68-80 | as for branches, with "Invalid agent data" |
| Routes.PostCustomer | server/routes.ts:117-129 | as for branches, with "Invalid customer data" |
| Routes.PostDelivery | server/routes.ts:155-167 | as for branches, with "Invalid delivery data" |
| Routes.PostStaff | server/routes.ts:205-217 | as for branches, with "Invalid staff data" |
| Routes.PostLeaveRequest | server/routes.ts:240-252 | as for branches, with "Invalid leave request data" |
| Routes.PostAttendance | server/routes.ts:275-287 | as for branches, with "Invalid attendance data" |
| Routes.PutAgent | server/routes.ts:82-91 | PUT answers 500 "Failed to update agent", never 404, exactly when the id is absent, and then changes nothing; otherwise 200 with the patch merged onto the stored agent, which replaces it in place while every other table and the counter stay unchanged |
| Routes.PutDelivery | server/routes.ts:169-178 | the same for deliveries, with "Failed to update delivery" |
| Routes.PutStaff | server/routes.ts:219-228 | the same for staff, with "Failed to update staff" |
| Routes.PutLeaveRequest | server/routes.ts:254-263 | the same for leave requests, with "Failed to update leave request" |
| LiveTrackingMap.ActiveDeliveriesOf | client/src/components/map/live-tracking-map.tsx:38 | exactly the deliveries assigned to the agent with status "active", each as often as it occurs, in their original order |
| LiveTrackingMap.TotalPackages | client/src/components/map/live-tracking-map.tsx:42-44 | the reduce starts from 0, so no deliveries means no packages, and one delivery contributes exactly its own package count (1 when `items` is not a list) |
| LiveTrackingMap.TotalPackagesConcat | client/src/components/map/live-tracking-map.tsx:42-44 | the package count of two lists together is the sum of their counts |
| LiveTrackingMap.TotalPackagesFirst | client/src/components/map/live-tracking-map.tsx:42-44 | summing from the front agrees with the reduce: the first delivery's packages plus the rest's |
| LiveTrackingMap.TotalPackagesAtLeastCount | client/src/components/map/live-tracking-map.tsx:43 | when no delivery has an empty item list, there are at least as many packages as deliveries |
| LiveTrackingMap.WithDeliveries | client/src/components/map/live-tracking-map.tsx:37-46 | one entry per agent in the same order (each built by `Join`), the agent unchanged, with its active deliveries and their package count |
| LiveTrackingMap.FilterAgents | client/src/components/map/live-tracking-map.tsx:49-54 | an order-preserving subsequence; "all" keeps everyone; "on delivery" keeps exactly the busy agents with an active delivery; "available" keeps exactly the available agents |
| LiveTrackingMap.StatusBadge | client/src/components/map/live-tracking-map.tsx:56-76 | "n Stops" exactly for agents the on-delivery filter keeps, with n their delivery count; "Available" exactly for the other agents the available filter keeps; "Offline" for everyone else, a busy agent without an active delivery included |
| LiveTrackingMap.StatusDescription | client/src/components/map/live-tracking-map.tsx:78-86 | "n Total Packages" for a busy agent with packages; "Ready for assignment" exactly for available agents; "Currently offline" exactly for the rest |
| LiveTrackingMap.MarkerIcon | client/src/components/map/live-tracking-map.tsx:88-108 | the marker has the same three cases as the badge, and the same count |
| LiveTrackingMap.DescriptionAgreesWithBadge | client/src/components/map/live-tracking-map.tsx:56-86 | when no active delivery has an empty item list, the description shows packages exactly when the badge shows stops, and "Currently offline" exactly when the badge shows "Offline" |
| LiveTrackingMap.BadgeAndDescriptionCanDisagree | client/src/components/map/live-tracking-map.tsx:57-80 | a busy agent whose one active delivery has an empty item list shows "1 Stops" but "Currently offline" |
| LiveTrackingMap.MapOfThree | client/src/components/map/live-tracking-map.tsx:37-75 | a busy agent without active deliveries shows "Offline", an available agent with one active delivery shows "Available", and the on-delivery filter keeps nobody |
| LiveTrackingMap.SeededAgentsOnMap | client/src/components/map/live-tracking-map.tsx:37-75 | on the sample data the busy agent's only delivery is overdue, so it shows "Offline"; the available agent carries the active delivery; the on-delivery filter is empty |
| LiveTrackingMap.MarkerPosition | client/src/components/map/live-tracking-map.tsx:263-270 | every marker sits at one of the five fixed positions |
| LiveTrackingMap.MarkerPositionsCycle | client/src/components/map/live-tracking-map.tsx:270 | two markers share a position exactly when their indices agree modulo 5; positions repeat every five agents |
| DeliveryTable.FindCustomer | client/src/components/deliveries/delivery-table.tsx:26-27 | the first customer with the id, none exactly when no customer has it |
| DeliveryTable.FindAgent | client/src/components/deliveries/delivery-table.tsx:29-30 | none for a null or zero agent id; otherwise the first agent with that id, none exactly when no agent has it |
| DeliveryTable.CustomerName | client/src/components/deliveries/delivery-table.tsx:135 | never empty: the customer's name, or "Unknown" for a missing customer or an empty name |
| DeliveryTable.StatusClass | client/src/components/deliveries/delivery-table.tsx:40-48 | "status-" plus the status for the four known statuses, "status-pending" for any other |
| DeliveryTable.DeclaredStatusClasses | client/src/lib/types.ts:36 | of the five declared delivery statuses, only "cancelled" lacks a style of its own and is styled as pending |
| DeliveryTable.StatusLabel | client/src/components/deliveries/delivery-table.tsx:49 | same length; the first character upper-cased and the rest unchanged |
| DeliveryTable.StatusLabelIdempotent | client/src/components/deliveries/delivery-table.tsx:49 | labelling a label changes nothing |
| DeliveryTable.ElapsedMinutes | client/src/components/deliveries/delivery-table.tsx:60 | `Math.floor` of the difference in minutes: the largest m with m minutes at most the elapsed time |
| DeliveryTable.EstimateOf | client/src/components/deliveries/delivery-table.tsx:61 | `estimatedTime` when it is present and non-zero; exactly the default 60 when it is absent or zero; never zero |
| DeliveryTable.GetEta | client/src/components/deliveries/delivery-table.tsx:54-68 | "Completed" exactly for completed deliveries and "-" exactly for pending ones; otherwise overdue by a positive number of minutes, or remaining by a non-negative number, with elapsed = estimate + overdue or estimate - remaining |
| DeliveryTable.ElapsedMonotone | client/src/components/deliveries/delivery-table.tsx:60 | elapsed minutes never decrease as time passes |
| DeliveryTable.EtaNeverImproves | client/src/components/deliveries/delivery-table.tsx:59-67 | at a later instant a delivery is at least as late: overdue minutes never shrink and remaining minutes never grow |
| DeliveryTable.SeededEtas | client/src/components/deliveries/delivery-table.tsx:54-68 | the sample deliveries show 30 minutes overdue, 25 minutes remaining, and "-" |
| DeliveryTable.DisplayDeliveries | client/src/components/deliveries/delivery-table.tsx:70 | always a prefix of the list; the whole list without a truthy limit; min(limit, n) rows for a positive limit; n + limit rows (at least 0) for a negative one |
| DeliveryTable.ShowsPagination | client/src/components/deliveries/delivery-table.tsx:206 | the footer shows exactly when there is no truthy limit and the list is non-empty |
| Sidebar.IsActive | client/src/components/layout/sidebar.tsx:69-77 | a location always highlights its own link; any other location highlights only the dashboard (at "/") or HR (at a location starting with "/hr") |
| Sidebar.ActiveEntries | client/src/components/layout/sidebar.tsx:15-77 | Dashboard is highlighted exactly at "/" and "/dashboard", HR exactly at locations starting with "/hr", every other entry exactly at its own link |
| Sidebar.AtMostOneActive | client/src/components/layout/sidebar.tsx:15-77 | given the eight links, no location highlights two entries |
| Sidebar.HrefActivatesItself | client/src/components/layout/sidebar.tsx:86 | navigating to an entry's link highlights that entry |
| Sidebar.HrMatchesByPrefix | client/src/components/layout/sidebar.tsx:73-75 | "/hr/leave" and also "/hrx" highlight HR, "/h" does not |

## Left out

- HTTP plumbing: Express routing, JSON serialisation of dates, `createServer`, and the list-only GET routes. These just return the store's lists, which `Storage.MemStorage.GetAgents` and its siblings model.
- Request validation by the schema library is abstract. A POST body is either an accepted insert record or rejected (`None`), and the field-level error list of a 400 answer is not modelled.
- PUT bodies are modelled as well-typed patches (`AgentPatch` and its siblings). The source passes the request body to the store unvalidated, so extra keys and ill-typed values (a string `id`, `isActive: "yes"`) would be spread into the stored record; the model does not capture that.
- `parseInt` on the path id is not modelled. Ids are integers, so a non-numeric id (NaN) is outside the model; such a lookup simply misses in the source.
- The catch-all 500 answers of GET, POST and DELETE handlers are not modelled, because the in-memory store never throws on those paths. The 500 of PUT is modelled, because the store throws there.
- `async`/`Promise`: every store operation is synchronous in the model.
- `new Date()` and `Date.now()` are the parameter `now`. Timestamps are integer milliseconds.
- Decimal columns (rating, totalAmount, basicPay, coordinates) are opaque strings. Order item prices are integers.
- Text.ToUpper: covers ASCII letters only, not Unicode case mapping.
- DeliveryTable.StatusClass: treats every unmapped status as "status-pending". In the source, names such as "constructor" or "toString" are found on the object prototype instead.
- DeliveryTable.StatusLabel: takes the status as text. A delivery whose status is null, which is possible when a create omits it, would make the source's `charAt` throw while rendering; that crash is not modelled.
- DeliveryTable.GetEta: reads a missing `createdAt` as the epoch, which is what `new Date(null)` gives. An undefined `createdAt`, which would print "NaN min", is not distinguished; every delivery the store creates or seeds has a creation time.
- DeliveryTable.DisplayDeliveries: the limit is an integer; fractional and NaN limits are not modelled.
- React state and rendering: hooks, dialogs, hover and selection highlights, the collapsible panel, styling, and the icon and badge-colour choices beyond the three cases.
- The `IStorage` interface is not modelled separately, because `MemStorage` is its only implementation here.
- Schema uniqueness constraints (username, invoice number, staff id number) are declared for the database and not enforced by the in-memory store. The model does not enforce them either, so the find-first lookups return the first of several matches.
