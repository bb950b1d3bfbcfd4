/**
 * The REST handlers' own decisions: the dashboard metrics, the invoice search's
 * normalisation, and which status code each handler answers with for what the store
 * returned. Request validation by the schema library is abstracted as the body being
 * given (`Some`) or rejected (`None`).
 */
module Routes {
  import opened Wrappers
  import opened Schema
  import opened OrderedTable
  import opened Collections
  import opened Text
  import opened Storage

  /** A JSON body: a record, a `{ message }` object, or the 400 payload (field errors left abstract). */
  datatype Body<T> = Json(value: T) | Message(text: string) | Invalid(message: string)

  datatype Response<T> = Response(status: int, body: Body<T>)

  datatype DashboardMetrics = DashboardMetrics(
    activeAgents: string,
    pendingDeliveries: nat,
    activeDeliveries: nat,
    overdueDeliveries: nat)

  predicate NotOffline(a: Agent) { a.status != Some("offline") }

  /** `agent.isActive` is truthy. */
  predicate FlaggedActive(a: Agent) { a.isActive == Some(true) }

  function HasStatus(s: string): Delivery -> bool {
    (d: Delivery) => d.status == Some(s)
  }

  /** GET /api/dashboard/metrics: "<not offline>/<flagged active>" and three exact-status counts. */
  function Metrics(agents: seq<Agent>, deliveries: seq<Delivery>): (m: DashboardMetrics)
    ensures ParseRatio(m.activeAgents) == Some((|Filter(agents, NotOffline)|, |Filter(agents, FlaggedActive)|))
    ensures m.pendingDeliveries == |Filter(deliveries, HasStatus("pending"))|
    ensures m.activeDeliveries == |Filter(deliveries, HasStatus("active"))|
    ensures m.overdueDeliveries == |Filter(deliveries, HasStatus("overdue"))|
    ensures m.pendingDeliveries + m.activeDeliveries + m.overdueDeliveries <= |deliveries|
  {
    var pending := |Filter(deliveries, HasStatus("pending"))|;
    var active := |Filter(deliveries, HasStatus("active"))|;
    var overdue := |Filter(deliveries, HasStatus("overdue"))|;
    FilterDisjointLengths(deliveries, HasStatus("pending"), HasStatus("active"), HasStatus("overdue"));
    DashboardMetrics(FormatRatio(|Filter(agents, NotOffline)|, |Filter(agents, FlaggedActive)|),
                     pending, active, overdue)
  }

  /** A delivery whose status is none of pending, active and overdue (completed, cancelled, anything
      else, or absent) leaves every metric as it was. */
  lemma MetricsIgnoreOtherStatuses(agents: seq<Agent>, deliveries: seq<Delivery>, d: Delivery)
    requires d.status !in {Some("pending"), Some("active"), Some("overdue")}
    ensures Metrics(agents, deliveries + [d]) == Metrics(agents, deliveries)
  {
    FilterAppend(deliveries, d, HasStatus("pending"));
    FilterAppend(deliveries, d, HasStatus("active"));
    FilterAppend(deliveries, d, HasStatus("overdue"));
  }

  /** A delivery with one of the counted statuses raises exactly that count by one. */
  lemma MetricsCountNewDelivery(agents: seq<Agent>, deliveries: seq<Delivery>, d: Delivery)
    ensures var before, after := Metrics(agents, deliveries), Metrics(agents, deliveries + [d]);
            && after.activeAgents == before.activeAgents
            && after.pendingDeliveries == before.pendingDeliveries + (if d.status == Some("pending") then 1 else 0)
            && after.activeDeliveries == before.activeDeliveries + (if d.status == Some("active") then 1 else 0)
            && after.overdueDeliveries == before.overdueDeliveries + (if d.status == Some("overdue") then 1 else 0)
  {
    FilterAppend(deliveries, d, HasStatus("pending"));
    FilterAppend(deliveries, d, HasStatus("active"));
    FilterAppend(deliveries, d, HasStatus("overdue"));
  }

  /** The two agent counts are independent: an agent that is not offline but not flagged active
      raises the numerator and leaves the denominator alone. */
  lemma AgentCountsIndependent(agents: seq<Agent>, a: Agent)
    requires NotOffline(a) && !FlaggedActive(a)
    ensures |Filter(agents + [a], NotOffline)| == |Filter(agents, NotOffline)| + 1
    ensures |Filter(agents + [a], FlaggedActive)| == |Filter(agents, FlaggedActive)|
  {
    FilterAppend(agents, a, NotOffline);
    FilterAppend(agents, a, FlaggedActive);
  }

  /** The metrics the dashboard reads from a store: the agent ratio over the stored agents, and
      status counts that together never exceed the number of stored deliveries. */
  function StoreMetrics(store: MemStorage): (m: DashboardMetrics)
    reads store
    requires store.Valid()
    ensures ParseRatio(m.activeAgents) ==
              Some((|Filter(Values(store.agents), NotOffline)|, |Filter(Values(store.agents), FlaggedActive)|))
    ensures m.pendingDeliveries == |Filter(Values(store.deliveries), HasStatus("pending"))|
    ensures m.activeDeliveries == |Filter(Values(store.deliveries), HasStatus("active"))|
    ensures m.overdueDeliveries == |Filter(Values(store.deliveries), HasStatus("overdue"))|
    ensures m.pendingDeliveries + m.activeDeliveries + m.overdueDeliveries <= |store.deliveries|
  {
    Metrics(store.GetAgents(), store.GetDeliveries())
  }

  /** Three agents of which two are not offline and all are flagged active, and deliveries with
      statuses overdue, active and pending, give "2/3", 1, 1, 1. */
  lemma MetricsOfThree(a0: Agent, a1: Agent, a2: Agent, d0: Delivery, d1: Delivery, d2: Delivery)
    requires NotOffline(a0) && NotOffline(a1) && !NotOffline(a2)
    requires FlaggedActive(a0) && FlaggedActive(a1) && FlaggedActive(a2)
    requires d0.status == Some("overdue") && d1.status == Some("active") && d2.status == Some("pending")
    ensures Metrics([a0, a1, a2], [d0, d1, d2]) == DashboardMetrics("2/3", 1, 1, 1)
  {
    var agents, deliveries := [a0, a1, a2], [d0, d1, d2];
    FilterCountThree(a0, a1, a2, NotOffline);
    FilterCountThree(a0, a1, a2, FlaggedActive);
    FilterCountThree(d0, d1, d2, HasStatus("pending"));
    FilterCountThree(d0, d1, d2, HasStatus("active"));
    FilterCountThree(d0, d1, d2, HasStatus("overdue"));
    RatioTwoOfThree();
    var m := Metrics(agents, deliveries);
    assert m.activeAgents == FormatRatio(2, 3);
    assert m.pendingDeliveries == 1 && m.activeDeliveries == 1 && m.overdueDeliveries == 1;
  }

  lemma RatioTwoOfThree()
    ensures FormatRatio(2, 3) == "2/3"
  {
    assert NatToString(2) == "2" && NatToString(3) == "3";
  }

  /** On the sample data the dashboard shows "2/3" agents and one pending, one active and one
      overdue delivery. */
  lemma SeededMetrics(now: Timestamp)
    ensures Metrics(Values(SeedAgents(now)), Values(SeedDeliveries(now))) == DashboardMetrics("2/3", 1, 1, 1)
  {
    var a := SeedAgents(now);
    var d := SeedDeliveries(now);
    assert Values(a) == [a[0].value, a[1].value, a[2].value];
    assert Values(d) == [d[0].value, d[1].value, d[2].value];
    MetricsOfThree(a[0].value, a[1].value, a[2].value, d[0].value, d[1].value, d[2].value);
  }

  /** A fresh store reports the sample-data metrics. */
  method SeededMetricsScenario(now: Timestamp) returns (m: DashboardMetrics)
    ensures m == DashboardMetrics("2/3", 1, 1, 1)
  {
    var store := new MemStorage(now);
    m := StoreMetrics(store);
    SeededMetrics(now);
  }

  /** A single-record GET: the record with 200, or 404 when the store has none. */
  function LookupResponse<T>(found: Option<T>, notFound: string): (r: Response<T>)
    ensures r.status == 404 <==> found.None?
    ensures found.Some? ==> r == Response(200, Json(found.value))
    ensures found.None? ==> r.body == Message(notFound)
  {
    match found
    case Some(v) => Response(200, Json(v))
    case None => Response(404, Message(notFound))
  }

  /** GET /api/deliveries/:id. */
  function GetDeliveryRoute(store: MemStorage, id: int): (r: Response<Delivery>)
    reads store
    ensures r.status == 404 <==> id !in Keys(store.deliveries)
    ensures r.status != 404 ==> r == Response(200, Json(Get(store.deliveries, id).value))
  {
    LookupResponse(store.GetDelivery(id), "Delivery not found")
  }

  /** GET /api/deliveries/search/:query: the query is upper-cased, then looked up exactly. */
  function SearchDeliveries(store: MemStorage, query: string): (r: Response<Delivery>)
    reads store
    ensures r.status == 404 <==> store.GetDeliveryByInvoice(ToUpper(query)).None?
    ensures r.status != 404 ==> r.status == 200 && r.body.Json? && r.body.value.invoiceNumber == ToUpper(query)
    ensures r.status == 200 ==> r.body == Json(store.GetDeliveryByInvoice(ToUpper(query)).value)
  {
    LookupResponse(store.GetDeliveryByInvoice(ToUpper(query)), "Delivery not found")
  }

  /** Two queries that differ only in letter case get the same answer. */
  lemma SearchIgnoresCase(store: MemStorage, q1: string, q2: string)
    requires EqualsIgnoringCase(q1, q2)
    ensures SearchDeliveries(store, q1) == SearchDeliveries(store, q2)
  {
    ToUpperEqualIff(q1, q2);
  }

  /** An invoice number without lower-case letters is found by any query equal to it up to case. */
  lemma SearchFindsUpperCaseInvoice(store: MemStorage, query: string, i: int)
    requires 0 <= i < |store.deliveries|
    requires !HasLower(store.deliveries[i].value.invoiceNumber)
    requires EqualsIgnoringCase(query, store.deliveries[i].value.invoiceNumber)
    ensures SearchDeliveries(store, query).status == 200
  {
    var inv := store.deliveries[i].value.invoiceNumber;
    ToUpperEqualIff(query, inv);
    ToUpperNormalises(inv);
  }

  /** A search never answers with an invoice number containing a lower-case letter. */
  lemma SearchNeverFindsLowerCase(store: MemStorage, query: string)
    ensures SearchDeliveries(store, query).status == 200 ==>
              !HasLower(SearchDeliveries(store, query).body.value.invoiceNumber)
  {
    ToUpperNormalises(query);
  }

  /** DELETE /api/agents/:id: a message with 200 when something was removed, 404 otherwise. */
  function DeleteResponse(removed: bool): (r: Response<Agent>)
    ensures r.status == 404 <==> !removed
    ensures removed ==> r.status == 200
    ensures r.body == Message(if removed then "Agent deleted successfully" else "Agent not found")
  {
    if removed then Response(200, Message("Agent deleted successfully"))
    else Response(404, Message("Agent not found"))
  }

  method DeleteAgentRoute(store: MemStorage, id: int) returns (resp: Response<Agent>)
    requires store.Valid()
    modifies store
    ensures store.Valid()
    ensures resp.status == 404 <==> id !in Keys(old(store.agents))
    ensures resp == DeleteResponse(id in Keys(old(store.agents)))
    ensures store.State() == old(store.State()).(agents := Delete(old(store.agents), id))
  {
    var removed := store.DeleteAgent(id);
    resp := DeleteResponse(removed);
  }

  /** A PUT: the updated record with 200, or the generic 500 when the store threw. */
  function UpdateResponse<T>(r: Result<T, StoreError>, failure: string): (resp: Response<T>)
    ensures resp.status == 500 <==> r.Failure?
    ensures r.Success? ==> resp == Response(200, Json(r.value))
    ensures r.Failure? ==> resp.body == Message(failure)
  {
    match r
    case Success(v) => Response(200, Json(v))
    case Failure(_) => Response(500, Message(failure))
  }

  /** A POST: the created record with 201, or 400 when the body failed validation. */
  function CreateResponse<T>(created: Option<T>, invalid: string): (r: Response<T>)
    ensures r.status == 201 <==> created.Some?
    ensures created.Some? ==> r.body == Json(created.value)
    ensures created.None? ==> r == Response(400, Invalid(invalid))
  {
    match created
    case Some(v) => Response(201, Json(v))
    case None => Response(400, Invalid(invalid))
  }


  /** POST for branch records: a body the schema rejects answers 400 and stores nothing; otherwise the
      record is created and answered with 201. */
  method PostBranch(store: MemStorage, body: Option<InsertBranch>) returns (resp: Response<Branch>)
    requires store.Valid()
    modifies store
    ensures store.Valid()
    ensures body.None? ==> resp == Response(400, Invalid("Invalid branch data")) && store.State() == old(store.State())
    ensures body.Some? ==> resp == Response(201, Json(NewBranch(body.value, old(store.currentId))))
    ensures body.Some? ==> Get(store.branches, old(store.currentId)) == Some(resp.body.value)
    ensures body.Some? ==> store.State() == old(store.State()).(branches := old(store.branches) + [Entry(old(store.currentId), resp.body.value)],
                                                               currentId := old(store.currentId) + 1)
  {
    var created: Option<Branch> := None;
    if body.Some? {
      var record := store.CreateBranch(body.value);
      created := Some(record);
    }
    resp := CreateResponse(created, "Invalid branch data");
  }

  /** POST for agent records: a body the schema rejects answers 400 and stores nothing; otherwise the
      record is created and answered with 201. */
  method PostAgent(store: MemStorage, body: Option<InsertAgent>, now: Timestamp) returns (resp: Response<Agent>)
    requires store.Valid()
    modifies store
    ensures store.Valid()
    ensures body.None? ==> resp == Response(400, Invalid("Invalid agent data")) && store.State() == old(store.State())
    ensures body.Some? ==> resp == Response(201, Json(NewAgent(body.value, old(store.currentId), now)))
    ensures body.Some? ==> Get(store.agents, old(store.currentId)) == Some(resp.body.value)
    ensures body.Some? ==> store.State() == old(store.State()).(agents := old(store.agents) + [Entry(old(store.currentId), resp.body.value)],
                                                               currentId := old(store.currentId) + 1)
  {
    var created: Option<Agent> := None;
    if body.Some? {
      var record := store.CreateAgent(body.value, now);
      created := Some(record);
    }
    resp := CreateResponse(created, "Invalid agent data");
  }

  /** POST for customer records: a body the schema rejects answers 400 and stores nothing; otherwise the
      record is created and answered with 201. */
  method PostCustomer(store: MemStorage, body: Option<InsertCustomer>, now: Timestamp) returns (resp: Response<Customer>)
    requires store.Valid()
    modifies store
    ensures store.Valid()
    ensures body.None? ==> resp == Response(400, Invalid("Invalid customer data")) && store.State() == old(store.State())
    ensures body.Some? ==> resp == Response(201, Json(NewCustomer(body.value, old(store.currentId), now)))
    ensures body.Some? ==> Get(store.customers, old(store.currentId)) == Some(resp.body.value)
    ensures body.Some? ==> store.State() == old(store.State()).(customers := old(store.customers) + [Entry(old(store.currentId), resp.body.value)],
                                                               currentId := old(store.currentId) + 1)
  {
    var created: Option<Customer> := None;
    if body.Some? {
      var record := store.CreateCustomer(body.value, now);
      created := Some(record);
    }
    resp := CreateResponse(created, "Invalid customer data");
  }

  /** POST for delivery records: a body the schema rejects answers 400 and stores nothing; otherwise the
      record is created and answered with 201. */
  method PostDelivery(store: MemStorage, body: Option<InsertDelivery>, now: Timestamp) returns (resp: Response<Delivery>)
    requires store.Valid()
    modifies store
    ensures store.Valid()
    ensures body.None? ==> resp == Response(400, Invalid("Invalid delivery data")) && store.State() == old(store.State())
    ensures body.Some? ==> resp == Response(201, Json(NewDelivery(body.value, old(store.currentId), now)))
    ensures body.Some? ==> Get(store.deliveries, old(store.currentId)) == Some(resp.body.value)
    ensures body.Some? ==> store.State() == old(store.State()).(deliveries := old(store.deliveries) + [Entry(old(store.currentId), resp.body.value)],
                                                               currentId := old(store.currentId) + 1)
  {
    var created: Option<Delivery> := None;
    if body.Some? {
      var record := store.CreateDelivery(body.value, now);
      created := Some(record);
    }
    resp := CreateResponse(created, "Invalid delivery data");
  }

  /** POST for staff records: a body the schema rejects answers 400 and stores nothing; otherwise the
      record is created and answered with 201. */
  method PostStaff(store: MemStorage, body: Option<InsertStaff>, now: Timestamp) returns (resp: Response<Staff>)
    requires store.Valid()
    modifies store
    ensures store.Valid()
    ensures body.None? ==> resp == Response(400, Invalid("Invalid staff data")) && store.State() == old(store.State())
    ensures body.Some? ==> resp == Response(201, Json(NewStaff(body.value, old(store.currentId), now)))
    ensures body.Some? ==> Get(store.staff, old(store.currentId)) == Some(resp.body.value)
    ensures body.Some? ==> store.State() == old(store.State()).(staff := old(store.staff) + [Entry(old(store.currentId), resp.body.value)],
                                                               currentId := old(store.currentId) + 1)
  {
    var created: Option<Staff> := None;
    if body.Some? {
      var record := store.CreateStaff(body.value, now);
      created := Some(record);
    }
    resp := CreateResponse(created, "Invalid staff data");
  }

  /** POST for leave request records: a body the schema rejects answers 400 and stores nothing; otherwise the
      record is created and answered with 201. */
  method PostLeaveRequest(store: MemStorage, body: Option<InsertLeaveRequest>, now: Timestamp) returns (resp: Response<LeaveRequest>)
    requires store.Valid()
    modifies store
    ensures store.Valid()
    ensures body.None? ==> resp == Response(400, Invalid("Invalid leave request data")) && store.State() == old(store.State())
    ensures body.Some? ==> resp == Response(201, Json(NewLeaveRequest(body.value, old(store.currentId), now)))
    ensures body.Some? ==> Get(store.leaveRequests, old(store.currentId)) == Some(resp.body.value)
    ensures body.Some? ==> store.State() == old(store.State()).(leaveRequests := old(store.leaveRequests) + [Entry(old(store.currentId), resp.body.value)],
                                                               currentId := old(store.currentId) + 1)
  {
    var created: Option<LeaveRequest> := None;
    if body.Some? {
      var record := store.CreateLeaveRequest(body.value, now);
      created := Some(record);
    }
    resp := CreateResponse(created, "Invalid leave request data");
  }

  /** POST for attendance records: a body the schema rejects answers 400 and stores nothing; otherwise the
      record is created and answered with 201. */
  method PostAttendance(store: MemStorage, body: Option<InsertAttendance>) returns (resp: Response<Attendance>)
    requires store.Valid()
    modifies store
    ensures store.Valid()
    ensures body.None? ==> resp == Response(400, Invalid("Invalid attendance data")) && store.State() == old(store.State())
    ensures body.Some? ==> resp == Response(201, Json(NewAttendance(body.value, old(store.currentId))))
    ensures body.Some? ==> Get(store.attendance, old(store.currentId)) == Some(resp.body.value)
    ensures body.Some? ==> store.State() == old(store.State()).(attendance := old(store.attendance) + [Entry(old(store.currentId), resp.body.value)],
                                                               currentId := old(store.currentId) + 1)
  {
    var created: Option<Attendance> := None;
    if body.Some? {
      var record := store.CreateAttendance(body.value);
      created := Some(record);
    }
    resp := CreateResponse(created, "Invalid attendance data");
  }

  /** PUT for agent records: the patch is merged by the store; an absent id makes the store throw,
      which the generic handler answers with 500 (not 404). */
  method PutAgent(store: MemStorage, id: int, patch: AgentPatch) returns (resp: Response<Agent>)
    requires store.Valid()
    modifies store
    ensures store.Valid()
    ensures resp.status == 500 <==> id !in Keys(old(store.agents))
    ensures resp.status == 500 ==> resp.body == Message("Failed to update agent") && store.State() == old(store.State())
    ensures resp.status != 500 ==> resp == Response(200, Json(MergeAgent(Get(old(store.agents), id).value, patch)))
    ensures resp.status != 500 ==> store.State() == old(store.State()).(agents := Set(old(store.agents), id, resp.body.value))
  {
    var r := store.UpdateAgent(id, patch);
    resp := UpdateResponse(r, "Failed to update agent");
  }

  /** PUT for delivery records: the patch is merged by the store; an absent id makes the store throw,
      which the generic handler answers with 500 (not 404). */
  method PutDelivery(store: MemStorage, id: int, patch: DeliveryPatch) returns (resp: Response<Delivery>)
    requires store.Valid()
    modifies store
    ensures store.Valid()
    ensures resp.status == 500 <==> id !in Keys(old(store.deliveries))
    ensures resp.status == 500 ==> resp.body == Message("Failed to update delivery") && store.State() == old(store.State())
    ensures resp.status != 500 ==> resp == Response(200, Json(MergeDelivery(Get(old(store.deliveries), id).value, patch)))
    ensures resp.status != 500 ==> store.State() == old(store.State()).(deliveries := Set(old(store.deliveries), id, resp.body.value))
  {
    var r := store.UpdateDelivery(id, patch);
    resp := UpdateResponse(r, "Failed to update delivery");
  }

  /** PUT for staff records: the patch is merged by the store; an absent id makes the store throw,
      which the generic handler answers with 500 (not 404). */
  method PutStaff(store: MemStorage, id: int, patch: StaffPatch) returns (resp: Response<Staff>)
    requires store.Valid()
    modifies store
    ensures store.Valid()
    ensures resp.status == 500 <==> id !in Keys(old(store.staff))
    ensures resp.status == 500 ==> resp.body == Message("Failed to update staff") && store.State() == old(store.State())
    ensures resp.status != 500 ==> resp == Response(200, Json(MergeStaff(Get(old(store.staff), id).value, patch)))
    ensures resp.status != 500 ==> store.State() == old(store.State()).(staff := Set(old(store.staff), id, resp.body.value))
  {
    var r := store.UpdateStaff(id, patch);
    resp := UpdateResponse(r, "Failed to update staff");
  }

  /** PUT for leave request records: the patch is merged by the store; an absent id makes the store throw,
      which the generic handler answers with 500 (not 404). */
  method PutLeaveRequest(store: MemStorage, id: int, patch: LeaveRequestPatch) returns (resp: Response<LeaveRequest>)
    requires store.Valid()
    modifies store
    ensures store.Valid()
    ensures resp.status == 500 <==> id !in Keys(old(store.leaveRequests))
    ensures resp.status == 500 ==> resp.body == Message("Failed to update leave request") && store.State() == old(store.State())
    ensures resp.status != 500 ==> resp == Response(200, Json(MergeLeaveRequest(Get(old(store.leaveRequests), id).value, patch)))
    ensures resp.status != 500 ==> store.State() == old(store.State()).(leaveRequests := Set(old(store.leaveRequests), id, resp.body.value))
  {
    var r := store.UpdateLeaveRequest(id, patch);
    resp := UpdateResponse(r, "Failed to update leave request");
  }

}
