/**
 * The in-memory entity store: eight tables keyed by id and one id counter that every
 * kind of record draws from. Reads are functions of the state; create, update and
 * delete change it in place.
 */
module Storage {
  import opened Wrappers
  import opened Schema
  import opened OrderedTable
  import opened Collections

  /** The counter value once the sample data is loaded: the samples use ids below it. */
  const FirstFreeId: int := 10

  /** What an update of an absent id throws. */
  datatype StoreError = NotFound(message: string)

  /** The whole state of a store, so that a contract can say what an operation leaves alone. */
  datatype StoreState = StoreState(
    users: Table<User>,
    branches: Table<Branch>,
    agents: Table<Agent>,
    customers: Table<Customer>,
    deliveries: Table<Delivery>,
    staff: Table<Staff>,
    leaveRequests: Table<LeaveRequest>,
    attendance: Table<Attendance>,
    currentId: int)

  /** No key twice, and every key a positive id the counter has already passed. */
  ghost predicate IdsBelow<V>(t: Table<V>, bound: int) {
    DistinctKeys(t) && forall i :: 0 <= i < |t| ==> 0 < t[i].key < bound
  }

  /** Storing a record under the id just taken from the counter keeps the bound. */
  lemma AppendFreshId<V>(t: Table<V>, id: int, v: V, bound: int)
    requires IdsBelow(t, id) && 0 < id < bound
    ensures IdsBelow(t + [Entry(id, v)], bound)
  {
    var r := t + [Entry(id, v)];
    assert forall i :: 0 <= i < |t| ==> r[i] == t[i];
  }

  ghost function KeySet<V>(t: Table<V>): set<int> {
    set k | k in Keys(t)
  }

  /** The two sample branches, under ids 1 and 2. */
  function SeedBranches(): Table<Branch> {
    [ Entry(1, Branch(1, "Shop A (Main)", "Nairobi CBD", Some("+254 700 000 001"), Some(true))),
      Entry(2, Branch(2, "Warehouse", "Industrial Area", Some("+254 700 000 002"), Some(true))) ]
  }

  /** The four sample customers, under ids 1 to 4, registered `now`. */
  function SeedCustomers(now: Timestamp): Table<Customer> {
    [ Entry(1, Customer(1, "Sarah Muthoni", "+254 700 123 456", Some("sarah@example.com"),
                        Some("Kilimani, Nairobi"), Some(now))),
      Entry(2, Customer(2, "Peter Ochieng", "+254 722 987 654", Some("peter@example.com"),
                        Some("Westlands, Nairobi"), Some(now))),
      Entry(3, Customer(3, "Grace Njeri", "+254 733 456 789", Some("grace@example.com"),
                        Some("Karen, Nairobi"), Some(now))),
      Entry(4, Customer(4, "David Kiprotich", "+254 711 234 567", Some("david@example.com"),
                        Some("Kasarani, Nairobi"), Some(now))) ]
  }

  /** The three sample agents: one busy, one available, one offline, all flagged active. */
  function SeedAgents(now: Timestamp): Table<Agent> {
    [ Entry(1, Agent(1, "John Kamau", "+254 700 111 001", "rider", "internal", Some("busy"), Some(145),
                     Some("4.8"), Some("-1.2921"), Some("36.8219"), Some(1), Some(true), Some(now))),
      Entry(2, Agent(2, "Mary Wanjiku", "+254 700 111 002", "cbd_walkin", "internal", Some("available"),
                     Some(98), Some("4.6"), Some("-1.2864"), Some("36.8172"), Some(1), Some(true), Some(now))),
      Entry(3, Agent(3, "James Mwangi", "+254 700 111 003", "rider", "outsourced", Some("offline"), Some(67),
                     Some("4.3"), Some("-1.3031"), Some("36.8441"), Some(2), Some(true), Some(now))) ]
  }

  /** The three sample deliveries: overdue, active and pending, created 90, 20 and 10 minutes ago. */
  function SeedDeliveries(now: Timestamp): Table<Delivery> {
    [ Entry(1, Delivery(1, "KIM-001234", 1, Some(1), "door", Some("overdue"),
                        ItemList([OrderItem("Chocolate Powder", 2, 800)]), "1600", "cod", Some("pending"),
                        "Kilimani, Nairobi", Some(60), None, None, None, Some(1), Some(now - 90 * 60 * 1000), None)),
      Entry(2, Delivery(2, "ACCRA-005678", 2, Some(2), "walkin", Some("active"),
                        ItemList([OrderItem("Vanilla Extract", 1, 350)]), "350", "mpesa", Some("paid"),
                        "Westlands, Nairobi", Some(45), None, None, None, Some(1), Some(now - 20 * 60 * 1000), None)),
      Entry(3, Delivery(3, "KIM-001235", 3, None, "internal", Some("pending"),
                        ItemList([OrderItem("Baking Flour", 1, 450)]), "450", "cod", Some("pending"),
                        "Karen, Nairobi", None, None, None, None, Some(1), Some(now - 10 * 60 * 1000), None)) ]
  }

  /** The two sample staff members, hired `now`. */
  function SeedStaff(now: Timestamp): Table<Staff> {
    [ Entry(1, Staff(1, "Alice Wanjiru", "12345678", "+254 700 200 001", Some("alice@topserve.com"), "Manager",
                     Some("Operations"), Some(1), None, None, None, Some("60000"), None, None, None, None,
                     Some(true), Some(now))),
      Entry(2, Staff(2, "Robert Kipkoech", "87654321", "+254 700 200 002", Some("robert@topserve.com"),
                     "Supervisor", Some("Delivery"), Some(1), None, None, None, Some("45000"), None, None, None,
                     None, Some(true), Some(now))) ]
  }

  class MemStorage {
    var users: Table<User>
    var branches: Table<Branch>
    var agents: Table<Agent>
    var customers: Table<Customer>
    var deliveries: Table<Delivery>
    var staff: Table<Staff>
    var leaveRequests: Table<LeaveRequest>
    var attendance: Table<Attendance>
    var currentId: int

    /** The store's invariant: every table is a proper map whose keys the counter has passed. */
    ghost predicate Valid()
      reads this
    {
      && FirstFreeId <= currentId
      && IdsBelow(users, currentId)
      && IdsBelow(branches, currentId)
      && IdsBelow(agents, currentId)
      && IdsBelow(customers, currentId)
      && IdsBelow(deliveries, currentId)
      && IdsBelow(staff, currentId)
      && IdsBelow(leaveRequests, currentId)
      && IdsBelow(attendance, currentId)
    }

    function State(): StoreState
      reads this
    {
      StoreState(users, branches, agents, customers, deliveries, staff, leaveRequests, attendance, currentId)
    }

    /** Every id in use, across all kinds. */
    ghost function UsedIds(): set<int>
      reads this
    {
      KeySet(users) + KeySet(branches) + KeySet(agents) + KeySet(customers) +
      KeySet(deliveries) + KeySet(staff) + KeySet(leaveRequests) + KeySet(attendance)
    }

    /** A new store holds the sample data, and its counter stands at 10. */
    constructor (now: Timestamp)
      ensures Valid() && currentId == FirstFreeId
      ensures State() == StoreState([], SeedBranches(), SeedAgents(now), SeedCustomers(now),
                                    SeedDeliveries(now), SeedStaff(now), [], [], FirstFreeId)
    {
      users, branches, agents, customers := [], [], [], [];
      deliveries, staff, leaveRequests, attendance := [], [], [], [];
      currentId := 1;
      new;
      InitializeSampleData(now);
    }

    /** Loads the sample records under their own ids into the empty tables and moves the counter to 10. */
    method InitializeSampleData(now: Timestamp)
      requires State() == StoreState([], [], [], [], [], [], [], [], 1)
      modifies this
      ensures Valid()
      ensures State() == StoreState([], SeedBranches(), SeedAgents(now), SeedCustomers(now),
                                    SeedDeliveries(now), SeedStaff(now), [], [], FirstFreeId)
    {
      branches := SeedBranches();
      customers := SeedCustomers(now);
      agents := SeedAgents(now);
      deliveries := SeedDeliveries(now);
      staff := SeedStaff(now);
      currentId := FirstFreeId;
    }

    /** Takes the next id from the shared counter. */
    method NextId() returns (id: int)
      requires Valid()
      modifies this`currentId
      ensures Valid()
      ensures id == old(currentId) && State() == old(State()).(currentId := id + 1)
      ensures id !in UsedIds()
    {
      id := currentId;
      currentId := currentId + 1;
    }

    // User

    /** `getUser`: the record stored under `id`, undefined when there is none. */
    function GetUser(id: int): (r: Option<User>)
      reads this
      ensures r.None? <==> id !in Keys(users)
      ensures r.Some? ==> Entry(id, r.value) in users
    {
      Get(users, id)
    }

    /** `createUser`: the next id from the shared counter, the server fields stamped, the record stored and returned. */
    method CreateUser(data: InsertUser) returns (user: User)
      requires Valid()
      modifies this
      ensures Valid()
      ensures user == NewUser(data, old(currentId))
      ensures user.id == old(currentId) && currentId == old(currentId) + 1
      ensures user.id !in old(UsedIds())
      ensures Get(users, user.id) == Some(user)
      ensures State() == old(State()).(users := old(users) + [Entry(user.id, user)], currentId := old(currentId) + 1)
    {
      var id := NextId();
      user := NewUser(data, id);
      AppendFreshId(users, id, user, currentId);
      users := Set(users, id, user);
    }

    /** `getUserByUsername`: the first user, in insertion order, whose username is exactly `username`.
        Create never checks for duplicates, so later users with the same name are unreachable here. */
    function GetUserByUsername(username: string): (r: Option<User>)
      reads this
      ensures r.None? <==> forall i :: 0 <= i < |users| ==> users[i].value.username != username
      ensures r.Some? ==> exists i :: 0 <= i < |users| && users[i].value == r.value &&
                                      r.value.username == username &&
                                      forall j :: 0 <= j < i ==> users[j].value.username != username
    {
      FindFirst(Values(users), (u: User) => u.username == username)
    }


    // Branch

    /** `getBranches`: every Branch record, in insertion order; the i-th is what get-by-id returns for the i-th key. */
    function GetBranches(): (r: seq<Branch>)
      reads this
      requires Valid()
      ensures |r| == |branches|
      ensures forall i :: 0 <= i < |r| ==> Get(branches, Keys(branches)[i]) == Some(r[i])
    {
      ValuesAreGets(branches);
      Values(branches)
    }

    /** `getBranch`: the record stored under `id`, undefined when there is none. */
    function GetBranch(id: int): (r: Option<Branch>)
      reads this
      ensures r.None? <==> id !in Keys(branches)
      ensures r.Some? ==> Entry(id, r.value) in branches
    {
      Get(branches, id)
    }

    /** `createBranch`: the next id from the shared counter, the server fields stamped, the record stored and returned. */
    method CreateBranch(data: InsertBranch) returns (branch: Branch)
      requires Valid()
      modifies this
      ensures Valid()
      ensures branch == NewBranch(data, old(currentId))
      ensures branch.id == old(currentId) && currentId == old(currentId) + 1
      ensures branch.id !in old(UsedIds())
      ensures Get(branches, branch.id) == Some(branch)
      ensures State() == old(State()).(branches := old(branches) + [Entry(branch.id, branch)], currentId := old(currentId) + 1)
    {
      var id := NextId();
      branch := NewBranch(data, id);
      AppendFreshId(branches, id, branch, currentId);
      branches := Set(branches, id, branch);
    }

    // Agent

    /** `getAgents`: every Agent record, in insertion order; the i-th is what get-by-id returns for the i-th key. */
    function GetAgents(): (r: seq<Agent>)
      reads this
      requires Valid()
      ensures |r| == |agents|
      ensures forall i :: 0 <= i < |r| ==> Get(agents, Keys(agents)[i]) == Some(r[i])
    {
      ValuesAreGets(agents);
      Values(agents)
    }

    /** `getAgent`: the record stored under `id`, undefined when there is none. */
    function GetAgent(id: int): (r: Option<Agent>)
      reads this
      ensures r.None? <==> id !in Keys(agents)
      ensures r.Some? ==> Entry(id, r.value) in agents
    {
      Get(agents, id)
    }

    /** `createAgent`: the next id from the shared counter, the server fields stamped, the record stored and returned. */
    method CreateAgent(data: InsertAgent, now: Timestamp) returns (agent: Agent)
      requires Valid()
      modifies this
      ensures Valid()
      ensures agent == NewAgent(data, old(currentId), now)
      ensures agent.id == old(currentId) && currentId == old(currentId) + 1
      ensures agent.id !in old(UsedIds())
      ensures Get(agents, agent.id) == Some(agent)
      ensures State() == old(State()).(agents := old(agents) + [Entry(agent.id, agent)], currentId := old(currentId) + 1)
    {
      var id := NextId();
      agent := NewAgent(data, id, now);
      AppendFreshId(agents, id, agent, currentId);
      agents := Set(agents, id, agent);
    }

    /** `updateAgent`: throws when `id` is absent; otherwise merges the patch onto the stored
        record, stores the result under the same key, in the same position, and returns it. */
    method UpdateAgent(id: int, patch: AgentPatch) returns (r: Result<Agent, StoreError>)
      requires Valid()
      modifies this
      ensures Valid()
      ensures old(Get(agents, id)).None? ==>
                r == Failure(NotFound("Agent not found")) && State() == old(State())
      ensures old(Get(agents, id)).Some? ==>
                && r == Success(MergeAgent(old(Get(agents, id)).value, patch))
                && Get(agents, id) == Some(r.value)
                && Keys(agents) == Keys(old(agents))
                && State() == old(State()).(agents := Set(old(agents), id, r.value))
    {
      match Get(agents, id)
      case None =>
        r := Failure(NotFound("Agent not found"));
      case Some(current) =>
        var updated := MergeAgent(current, patch);
        agents := Set(agents, id, updated);
        r := Success(updated);
    }

    /** `deleteAgent`: reports whether `id` was present; afterwards it is absent and nothing else changed. */
    method DeleteAgent(id: int) returns (removed: bool)
      requires Valid()
      modifies this
      ensures Valid()
      ensures removed <==> id in Keys(old(agents))
      ensures currentId == old(currentId)
      ensures Get(agents, id) == None
      ensures State() == old(State()).(agents := Delete(old(agents), id))
    {
      removed := id in Keys(agents);
      agents := Delete(agents, id);
    }

    // Customer

    /** `getCustomers`: every Customer record, in insertion order; the i-th is what get-by-id returns for the i-th key. */
    function GetCustomers(): (r: seq<Customer>)
      reads this
      requires Valid()
      ensures |r| == |customers|
      ensures forall i :: 0 <= i < |r| ==> Get(customers, Keys(customers)[i]) == Some(r[i])
    {
      ValuesAreGets(customers);
      Values(customers)
    }

    /** `getCustomer`: the record stored under `id`, undefined when there is none. */
    function GetCustomer(id: int): (r: Option<Customer>)
      reads this
      ensures r.None? <==> id !in Keys(customers)
      ensures r.Some? ==> Entry(id, r.value) in customers
    {
      Get(customers, id)
    }

    /** `createCustomer`: the next id from the shared counter, the server fields stamped, the record stored and returned. */
    method CreateCustomer(data: InsertCustomer, now: Timestamp) returns (customer: Customer)
      requires Valid()
      modifies this
      ensures Valid()
      ensures customer == NewCustomer(data, old(currentId), now)
      ensures customer.id == old(currentId) && currentId == old(currentId) + 1
      ensures customer.id !in old(UsedIds())
      ensures Get(customers, customer.id) == Some(customer)
      ensures State() == old(State()).(customers := old(customers) + [Entry(customer.id, customer)], currentId := old(currentId) + 1)
    {
      var id := NextId();
      customer := NewCustomer(data, id, now);
      AppendFreshId(customers, id, customer, currentId);
      customers := Set(customers, id, customer);
    }

    // Delivery

    /** `getDeliveries`: every Delivery record, in insertion order; the i-th is what get-by-id returns for the i-th key. */
    function GetDeliveries(): (r: seq<Delivery>)
      reads this
      requires Valid()
      ensures |r| == |deliveries|
      ensures forall i :: 0 <= i < |r| ==> Get(deliveries, Keys(deliveries)[i]) == Some(r[i])
    {
      ValuesAreGets(deliveries);
      Values(deliveries)
    }

    /** `getDelivery`: the record stored under `id`, undefined when there is none. */
    function GetDelivery(id: int): (r: Option<Delivery>)
      reads this
      ensures r.None? <==> id !in Keys(deliveries)
      ensures r.Some? ==> Entry(id, r.value) in deliveries
    {
      Get(deliveries, id)
    }

    /** `createDelivery`: the next id from the shared counter, the server fields stamped, the record stored and returned. */
    method CreateDelivery(data: InsertDelivery, now: Timestamp) returns (delivery: Delivery)
      requires Valid()
      modifies this
      ensures Valid()
      ensures delivery == NewDelivery(data, old(currentId), now)
      ensures delivery.id == old(currentId) && currentId == old(currentId) + 1
      ensures delivery.id !in old(UsedIds())
      ensures Get(deliveries, delivery.id) == Some(delivery)
      ensures State() == old(State()).(deliveries := old(deliveries) + [Entry(delivery.id, delivery)], currentId := old(currentId) + 1)
    {
      var id := NextId();
      delivery := NewDelivery(data, id, now);
      AppendFreshId(deliveries, id, delivery, currentId);
      deliveries := Set(deliveries, id, delivery);
    }

    /** `updateDelivery`: throws when `id` is absent; otherwise merges the patch onto the stored
        record, stores the result under the same key, in the same position, and returns it. */
    method UpdateDelivery(id: int, patch: DeliveryPatch) returns (r: Result<Delivery, StoreError>)
      requires Valid()
      modifies this
      ensures Valid()
      ensures old(Get(deliveries, id)).None? ==>
                r == Failure(NotFound("Delivery not found")) && State() == old(State())
      ensures old(Get(deliveries, id)).Some? ==>
                && r == Success(MergeDelivery(old(Get(deliveries, id)).value, patch))
                && Get(deliveries, id) == Some(r.value)
                && Keys(deliveries) == Keys(old(deliveries))
                && State() == old(State()).(deliveries := Set(old(deliveries), id, r.value))
    {
      match Get(deliveries, id)
      case None =>
        r := Failure(NotFound("Delivery not found"));
      case Some(current) =>
        var updated := MergeDelivery(current, patch);
        deliveries := Set(deliveries, id, updated);
        r := Success(updated);
    }

    /** `deleteDelivery`: reports whether `id` was present; afterwards it is absent and nothing else changed. */
    method DeleteDelivery(id: int) returns (removed: bool)
      requires Valid()
      modifies this
      ensures Valid()
      ensures removed <==> id in Keys(old(deliveries))
      ensures currentId == old(currentId)
      ensures Get(deliveries, id) == None
      ensures State() == old(State()).(deliveries := Delete(old(deliveries), id))
    {
      removed := id in Keys(deliveries);
      deliveries := Delete(deliveries, id);
    }

    /** `getDeliveryByInvoice`: the first delivery, in insertion order, whose invoice number is
        exactly `invoiceNumber` (case-sensitive); duplicates are possible and only the first is found. */
    function GetDeliveryByInvoice(invoiceNumber: string): (r: Option<Delivery>)
      reads this
      ensures r.None? <==> forall i :: 0 <= i < |deliveries| ==> deliveries[i].value.invoiceNumber != invoiceNumber
      ensures r.Some? ==> exists i :: 0 <= i < |deliveries| && deliveries[i].value == r.value &&
                                      r.value.invoiceNumber == invoiceNumber &&
                                      forall j :: 0 <= j < i ==> deliveries[j].value.invoiceNumber != invoiceNumber
    {
      FindFirst(Values(deliveries), (d: Delivery) => d.invoiceNumber == invoiceNumber)
    }


    // Staff

    /** `getStaff`: every Staff record, in insertion order; the i-th is what get-by-id returns for the i-th key. */
    function GetStaff(): (r: seq<Staff>)
      reads this
      requires Valid()
      ensures |r| == |staff|
      ensures forall i :: 0 <= i < |r| ==> Get(staff, Keys(staff)[i]) == Some(r[i])
    {
      ValuesAreGets(staff);
      Values(staff)
    }

    /** `getStaffMember`: the record stored under `id`, undefined when there is none. */
    function GetStaffMember(id: int): (r: Option<Staff>)
      reads this
      ensures r.None? <==> id !in Keys(staff)
      ensures r.Some? ==> Entry(id, r.value) in staff
    {
      Get(staff, id)
    }

    /** `createStaff`: the next id from the shared counter, the server fields stamped, the record stored and returned. */
    method CreateStaff(data: InsertStaff, now: Timestamp) returns (member: Staff)
      requires Valid()
      modifies this
      ensures Valid()
      ensures member == NewStaff(data, old(currentId), now)
      ensures member.id == old(currentId) && currentId == old(currentId) + 1
      ensures member.id !in old(UsedIds())
      ensures Get(staff, member.id) == Some(member)
      ensures State() == old(State()).(staff := old(staff) + [Entry(member.id, member)], currentId := old(currentId) + 1)
    {
      var id := NextId();
      member := NewStaff(data, id, now);
      AppendFreshId(staff, id, member, currentId);
      staff := Set(staff, id, member);
    }

    /** `updateStaff`: throws when `id` is absent; otherwise merges the patch onto the stored
        record, stores the result under the same key, in the same position, and returns it. */
    method UpdateStaff(id: int, patch: StaffPatch) returns (r: Result<Staff, StoreError>)
      requires Valid()
      modifies this
      ensures Valid()
      ensures old(Get(staff, id)).None? ==>
                r == Failure(NotFound("Staff member not found")) && State() == old(State())
      ensures old(Get(staff, id)).Some? ==>
                && r == Success(MergeStaff(old(Get(staff, id)).value, patch))
                && Get(staff, id) == Some(r.value)
                && Keys(staff) == Keys(old(staff))
                && State() == old(State()).(staff := Set(old(staff), id, r.value))
    {
      match Get(staff, id)
      case None =>
        r := Failure(NotFound("Staff member not found"));
      case Some(current) =>
        var updated := MergeStaff(current, patch);
        staff := Set(staff, id, updated);
        r := Success(updated);
    }

    // LeaveRequest

    /** `getLeaveRequests`: every LeaveRequest record, in insertion order; the i-th is what get-by-id returns for the i-th key. */
    function GetLeaveRequests(): (r: seq<LeaveRequest>)
      reads this
      requires Valid()
      ensures |r| == |leaveRequests|
      ensures forall i :: 0 <= i < |r| ==> Get(leaveRequests, Keys(leaveRequests)[i]) == Some(r[i])
    {
      ValuesAreGets(leaveRequests);
      Values(leaveRequests)
    }

    /** `getLeaveRequest`: the record stored under `id`, undefined when there is none. */
    function GetLeaveRequest(id: int): (r: Option<LeaveRequest>)
      reads this
      ensures r.None? <==> id !in Keys(leaveRequests)
      ensures r.Some? ==> Entry(id, r.value) in leaveRequests
    {
      Get(leaveRequests, id)
    }

    /** `createLeaveRequest`: the next id from the shared counter, the server fields stamped, the record stored and returned. */
    method CreateLeaveRequest(data: InsertLeaveRequest, now: Timestamp) returns (leaveRequest: LeaveRequest)
      requires Valid()
      modifies this
      ensures Valid()
      ensures leaveRequest == NewLeaveRequest(data, old(currentId), now)
      ensures leaveRequest.id == old(currentId) && currentId == old(currentId) + 1
      ensures leaveRequest.id !in old(UsedIds())
      ensures Get(leaveRequests, leaveRequest.id) == Some(leaveRequest)
      ensures State() == old(State()).(leaveRequests := old(leaveRequests) + [Entry(leaveRequest.id, leaveRequest)], currentId := old(currentId) + 1)
    {
      var id := NextId();
      leaveRequest := NewLeaveRequest(data, id, now);
      AppendFreshId(leaveRequests, id, leaveRequest, currentId);
      leaveRequests := Set(leaveRequests, id, leaveRequest);
    }

    /** `updateLeaveRequest`: throws when `id` is absent; otherwise merges the patch onto the stored
        record, stores the result under the same key, in the same position, and returns it. */
    method UpdateLeaveRequest(id: int, patch: LeaveRequestPatch) returns (r: Result<LeaveRequest, StoreError>)
      requires Valid()
      modifies this
      ensures Valid()
      ensures old(Get(leaveRequests, id)).None? ==>
                r == Failure(NotFound("Leave request not found")) && State() == old(State())
      ensures old(Get(leaveRequests, id)).Some? ==>
                && r == Success(MergeLeaveRequest(old(Get(leaveRequests, id)).value, patch))
                && Get(leaveRequests, id) == Some(r.value)
                && Keys(leaveRequests) == Keys(old(leaveRequests))
                && State() == old(State()).(leaveRequests := Set(old(leaveRequests), id, r.value))
    {
      match Get(leaveRequests, id)
      case None =>
        r := Failure(NotFound("Leave request not found"));
      case Some(current) =>
        var updated := MergeLeaveRequest(current, patch);
        leaveRequests := Set(leaveRequests, id, updated);
        r := Success(updated);
    }

    // Attendance

    /** `getAttendance`: every Attendance record, in insertion order; the i-th is what get-by-id returns for the i-th key. */
    function GetAttendance(): (r: seq<Attendance>)
      reads this
      requires Valid()
      ensures |r| == |attendance|
      ensures forall i :: 0 <= i < |r| ==> Get(attendance, Keys(attendance)[i]) == Some(r[i])
    {
      ValuesAreGets(attendance);
      Values(attendance)
    }

    /** `createAttendance`: the next id from the shared counter, the server fields stamped, the record stored and returned. */
    method CreateAttendance(data: InsertAttendance) returns (record: Attendance)
      requires Valid()
      modifies this
      ensures Valid()
      ensures record == NewAttendance(data, old(currentId))
      ensures record.id == old(currentId) && currentId == old(currentId) + 1
      ensures record.id !in old(UsedIds())
      ensures Get(attendance, record.id) == Some(record)
      ensures State() == old(State()).(attendance := old(attendance) + [Entry(record.id, record)], currentId := old(currentId) + 1)
    {
      var id := NextId();
      record := NewAttendance(data, id);
      AppendFreshId(attendance, id, record, currentId);
      attendance := Set(attendance, id, record);
    }

    /** `updateAttendance`: throws when `id` is absent; otherwise merges the patch onto the stored
        record, stores the result under the same key, in the same position, and returns it. */
    method UpdateAttendance(id: int, patch: AttendancePatch) returns (r: Result<Attendance, StoreError>)
      requires Valid()
      modifies this
      ensures Valid()
      ensures old(Get(attendance, id)).None? ==>
                r == Failure(NotFound("Attendance record not found")) && State() == old(State())
      ensures old(Get(attendance, id)).Some? ==>
                && r == Success(MergeAttendance(old(Get(attendance, id)).value, patch))
                && Get(attendance, id) == Some(r.value)
                && Keys(attendance) == Keys(old(attendance))
                && State() == old(State()).(attendance := Set(old(attendance), id, r.value))
    {
      match Get(attendance, id)
      case None =>
        r := Failure(NotFound("Attendance record not found"));
      case Some(current) =>
        var updated := MergeAttendance(current, patch);
        attendance := Set(attendance, id, updated);
        r := Success(updated);
    }

    /** `getAttendanceByStaff`: exactly the attendance records of `staffId`, in insertion order. */
    function GetAttendanceByStaff(staffId: int): (r: seq<Attendance>)
      reads this
      ensures IsSubsequence(r, Values(attendance))
      ensures forall i :: 0 <= i < |r| ==> r[i].staffId == staffId
      ensures forall i :: 0 <= i < |attendance| && attendance[i].value.staffId == staffId ==>
                attendance[i].value in r
      ensures forall i :: 0 <= i < |attendance| && attendance[i].value.staffId == staffId ==>
                multiset(r)[attendance[i].value] == multiset(Values(attendance))[attendance[i].value]
    {
      Filter(Values(attendance), (a: Attendance) => a.staffId == staffId)
    }


  }

  /** Creating a branch, then an agent, then a customer on a new store takes ids 10, 11 and 12
      from the one shared counter. */
  method SharedCounterScenario(now: Timestamp, b: InsertBranch, a: InsertAgent, c: InsertCustomer)
    returns (branch: Branch, agent: Agent, customer: Customer)
    ensures branch.id == 10 && agent.id == 11 && customer.id == 12
  {
    var store := new MemStorage(now);
    branch := store.CreateBranch(b);
    agent := store.CreateAgent(a, now);
    customer := store.CreateCustomer(c, now);
  }

  /** Deleting an id never hands it out again: after deleting seeded agent 1 and the new agent 10,
      the next agent gets 11. */
  method NoReuseScenario(now: Timestamp, a: InsertAgent, b: InsertAgent)
    returns (first: Agent, removedSeed: bool, removedFirst: bool, second: Agent)
    ensures first.id == 10 && removedSeed && removedFirst && second.id == 11
  {
    var store := new MemStorage(now);
    removedSeed := store.DeleteAgent(1);
    first := store.CreateAgent(a, now);
    removedFirst := store.DeleteAgent(first.id);
    second := store.CreateAgent(b, now);
  }

}
