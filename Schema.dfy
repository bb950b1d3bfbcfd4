/**
 * The record shapes of the entity store (the eight tables of the shared schema), the
 * insert shapes the routes hand to the store, the partial-update shapes, and the pure
 * record-building steps of the store's create and update operations.
 *
 * A field that is nullable or has a column default is an `Option`: the in-memory store
 * applies no column defaults, so a field the client leaves out is simply absent, and
 * `None` stands for both `null` and absent.
 */
module Schema {
  import opened Wrappers

  /** Milliseconds since the epoch (`Date.getTime()`). */
  type Timestamp = int

  /** Decimal columns travel as strings and are never computed with here. */
  type Decimal = string

  datatype OrderItem = OrderItem(name: string, quantity: int, price: int)

  /** The `items` JSON column: normally an array of order items, but nothing forces it to be one. */
  datatype Items = ItemList(list: seq<OrderItem>) | NotAList

  /** The delivery statuses the client declares; the store itself accepts any text. */
  const DeliveryStatuses: set<string> := {"pending", "active", "completed", "overdue", "cancelled"}

  /** One field of a spread `{ ...a, ...p }`: the patch value if the patch names the field. */
  function Pick<T>(patch: Option<T>, current: T): T {
    match patch
    case Some(v) => v
    case None => current
  }

  /** The later of two patch entries for one field: the second if it names the field, else the first. */
  function Later<T>(first: Option<T>, second: Option<T>): Option<T> {
    if second.Some? then second else first
  }

  datatype User = User(
    id: int,
    username: string,
    password: string,
    role: string,
    branchId: Option<int>)

  datatype Branch = Branch(
    id: int,
    name: string,
    address: string,
    phone: Option<string>,
    isActive: Option<bool>)

  datatype Agent = Agent(
    id: int,
    name: string,
    phone: string,
    agentType: string,
    agentCategory: string,
    status: Option<string>,
    tasksCompleted: Option<int>,
    rating: Option<Decimal>,
    currentLat: Option<Decimal>,
    currentLng: Option<Decimal>,
    branchId: Option<int>,
    isActive: Option<bool>,
    createdAt: Option<Timestamp>)

  datatype Customer = Customer(
    id: int,
    name: string,
    phone: string,
    email: Option<string>,
    address: Option<string>,
    registeredAt: Option<Timestamp>)

  datatype Delivery = Delivery(
    id: int,
    invoiceNumber: string,
    customerId: int,
    agentId: Option<int>,
    deliveryType: string,
    status: Option<string>,
    items: Items,
    totalAmount: Decimal,
    paymentMethod: string,
    paymentStatus: Option<string>,
    deliveryAddress: string,
    estimatedTime: Option<int>,
    actualTime: Option<int>,
    photoProof: Option<string>,
    notes: Option<string>,
    branchId: Option<int>,
    createdAt: Option<Timestamp>,
    completedAt: Option<Timestamp>)

  datatype Staff = Staff(
    id: int,
    fullName: string,
    idNumber: string,
    phone: string,
    email: Option<string>,
    role: string,
    department: Option<string>,
    branchId: Option<int>,
    nextOfKinName: Option<string>,
    nextOfKinPhone: Option<string>,
    nextOfKinAddress: Option<string>,
    basicPay: Option<Decimal>,
    maritalStatus: Option<string>,
    dependents: Option<int>,
    medicalConditions: Option<string>,
    currentAddress: Option<string>,
    isActive: Option<bool>,
    hiredAt: Option<Timestamp>)

  datatype LeaveRequest = LeaveRequest(
    id: int,
    staffId: int,
    leaveType: string,
    startDate: Timestamp,
    endDate: Timestamp,
    days: int,
    reason: string,
    status: Option<string>,
    approvedBy: Option<int>,
    requestedAt: Option<Timestamp>,
    reviewedAt: Option<Timestamp>)

  datatype Attendance = Attendance(
    id: int,
    staffId: int,
    date: Timestamp,
    clockIn: Option<Timestamp>,
    clockOut: Option<Timestamp>,
    clockInLat: Option<Decimal>,
    clockInLng: Option<Decimal>,
    clockOutLat: Option<Decimal>,
    clockOutLng: Option<Decimal>,
    isLate: Option<bool>,
    notes: Option<string>)

  datatype InsertUser = InsertUser(
    username: string,
    password: string)

  datatype InsertBranch = InsertBranch(
    name: string,
    address: string,
    phone: Option<string>,
    isActive: Option<bool>)

  datatype InsertAgent = InsertAgent(
    name: string,
    phone: string,
    agentType: string,
    agentCategory: string,
    status: Option<string>,
    tasksCompleted: Option<int>,
    rating: Option<Decimal>,
    currentLat: Option<Decimal>,
    currentLng: Option<Decimal>,
    branchId: Option<int>,
    isActive: Option<bool>)

  datatype InsertCustomer = InsertCustomer(
    name: string,
    phone: string,
    email: Option<string>,
    address: Option<string>)

  datatype InsertDelivery = InsertDelivery(
    invoiceNumber: string,
    customerId: int,
    agentId: Option<int>,
    deliveryType: string,
    status: Option<string>,
    items: Items,
    totalAmount: Decimal,
    paymentMethod: string,
    paymentStatus: Option<string>,
    deliveryAddress: string,
    estimatedTime: Option<int>,
    actualTime: Option<int>,
    photoProof: Option<string>,
    notes: Option<string>,
    branchId: Option<int>,
    completedAt: Option<Timestamp>)

  datatype InsertStaff = InsertStaff(
    fullName: string,
    idNumber: string,
    phone: string,
    email: Option<string>,
    role: string,
    department: Option<string>,
    branchId: Option<int>,
    nextOfKinName: Option<string>,
    nextOfKinPhone: Option<string>,
    nextOfKinAddress: Option<string>,
    basicPay: Option<Decimal>,
    maritalStatus: Option<string>,
    dependents: Option<int>,
    medicalConditions: Option<string>,
    currentAddress: Option<string>,
    isActive: Option<bool>)

  datatype InsertLeaveRequest = InsertLeaveRequest(
    staffId: int,
    leaveType: string,
    startDate: Timestamp,
    endDate: Timestamp,
    days: int,
    reason: string,
    status: Option<string>,
    approvedBy: Option<int>,
    reviewedAt: Option<Timestamp>)

  datatype InsertAttendance = InsertAttendance(
    staffId: int,
    date: Timestamp,
    clockIn: Option<Timestamp>,
    clockOut: Option<Timestamp>,
    clockInLat: Option<Decimal>,
    clockInLng: Option<Decimal>,
    clockOutLat: Option<Decimal>,
    clockOutLng: Option<Decimal>,
    isLate: Option<bool>,
    notes: Option<string>)

  datatype AgentPatch = AgentPatch(
    id: Option<int>,
    name: Option<string>,
    phone: Option<string>,
    agentType: Option<string>,
    agentCategory: Option<string>,
    status: Option<Option<string>>,
    tasksCompleted: Option<Option<int>>,
    rating: Option<Option<Decimal>>,
    currentLat: Option<Option<Decimal>>,
    currentLng: Option<Option<Decimal>>,
    branchId: Option<Option<int>>,
    isActive: Option<Option<bool>>,
    createdAt: Option<Option<Timestamp>>)

  datatype DeliveryPatch = DeliveryPatch(
    id: Option<int>,
    invoiceNumber: Option<string>,
    customerId: Option<int>,
    agentId: Option<Option<int>>,
    deliveryType: Option<string>,
    status: Option<Option<string>>,
    items: Option<Items>,
    totalAmount: Option<Decimal>,
    paymentMethod: Option<string>,
    paymentStatus: Option<Option<string>>,
    deliveryAddress: Option<string>,
    estimatedTime: Option<Option<int>>,
    actualTime: Option<Option<int>>,
    photoProof: Option<Option<string>>,
    notes: Option<Option<string>>,
    branchId: Option<Option<int>>,
    createdAt: Option<Option<Timestamp>>,
    completedAt: Option<Option<Timestamp>>)

  datatype StaffPatch = StaffPatch(
    id: Option<int>,
    fullName: Option<string>,
    idNumber: Option<string>,
    phone: Option<string>,
    email: Option<Option<string>>,
    role: Option<string>,
    department: Option<Option<string>>,
    branchId: Option<Option<int>>,
    nextOfKinName: Option<Option<string>>,
    nextOfKinPhone: Option<Option<string>>,
    nextOfKinAddress: Option<Option<string>>,
    basicPay: Option<Option<Decimal>>,
    maritalStatus: Option<Option<string>>,
    dependents: Option<Option<int>>,
    medicalConditions: Option<Option<string>>,
    currentAddress: Option<Option<string>>,
    isActive: Option<Option<bool>>,
    hiredAt: Option<Option<Timestamp>>)

  datatype LeaveRequestPatch = LeaveRequestPatch(
    id: Option<int>,
    staffId: Option<int>,
    leaveType: Option<string>,
    startDate: Option<Timestamp>,
    endDate: Option<Timestamp>,
    days: Option<int>,
    reason: Option<string>,
    status: Option<Option<string>>,
    approvedBy: Option<Option<int>>,
    requestedAt: Option<Option<Timestamp>>,
    reviewedAt: Option<Option<Timestamp>>)

  datatype AttendancePatch = AttendancePatch(
    id: Option<int>,
    staffId: Option<int>,
    date: Option<Timestamp>,
    clockIn: Option<Option<Timestamp>>,
    clockOut: Option<Option<Timestamp>>,
    clockInLat: Option<Option<Decimal>>,
    clockInLng: Option<Option<Decimal>>,
    clockOutLat: Option<Option<Decimal>>,
    clockOutLng: Option<Option<Decimal>>,
    isLate: Option<Option<bool>>,
    notes: Option<Option<string>>)

  /** The client-supplied part of a stored User. */
  function UserInsertOf(r: User): InsertUser {
    InsertUser(
      r.username, r.password)
  }

  /** The record the store builds on create: the insert data, then the server fields, which win. */
  function NewUser(d: InsertUser, id: int): (r: User)
    ensures UserInsertOf(r) == d
    ensures r.id == id
    ensures r.role == "admin"
    ensures r.branchId == Some(1)
  {
    User(
      id, d.username, d.password, "admin", Some(1))
  }

  /** The client-supplied part of a stored Branch. */
  function BranchInsertOf(r: Branch): InsertBranch {
    InsertBranch(
      r.name, r.address, r.phone, r.isActive)
  }

  /** The record the store builds on create: the insert data, then the server fields, which win. */
  function NewBranch(d: InsertBranch, id: int): (r: Branch)
    ensures BranchInsertOf(r) == d
    ensures r.id == id
  {
    Branch(
      id, d.name, d.address, d.phone, d.isActive)
  }

  /** The client-supplied part of a stored Agent. */
  function AgentInsertOf(r: Agent): InsertAgent {
    InsertAgent(
      r.name, r.phone, r.agentType, r.agentCategory, r.status, r.tasksCompleted, r.rating,
      r.currentLat, r.currentLng, r.branchId, r.isActive)
  }

  /** The record the store builds on create: the insert data, then the server fields, which win. */
  function NewAgent(d: InsertAgent, id: int, now: Timestamp): (r: Agent)
    ensures AgentInsertOf(r) == d
    ensures r.id == id
    ensures r.createdAt == Some(now)
  {
    Agent(
      id, d.name, d.phone, d.agentType, d.agentCategory, d.status, d.tasksCompleted, d.rating,
      d.currentLat, d.currentLng, d.branchId, d.isActive, Some(now))
  }

  /** The client-supplied part of a stored Customer. */
  function CustomerInsertOf(r: Customer): InsertCustomer {
    InsertCustomer(
      r.name, r.phone, r.email, r.address)
  }

  /** The record the store builds on create: the insert data, then the server fields, which win. */
  function NewCustomer(d: InsertCustomer, id: int, now: Timestamp): (r: Customer)
    ensures CustomerInsertOf(r) == d
    ensures r.id == id
    ensures r.registeredAt == Some(now)
  {
    Customer(
      id, d.name, d.phone, d.email, d.address, Some(now))
  }

  /** The client-supplied part of a stored Delivery. */
  function DeliveryInsertOf(r: Delivery): InsertDelivery {
    InsertDelivery(
      r.invoiceNumber, r.customerId, r.agentId, r.deliveryType, r.status, r.items, r.totalAmount,
      r.paymentMethod, r.paymentStatus, r.deliveryAddress, r.estimatedTime, r.actualTime,
      r.photoProof, r.notes, r.branchId, r.completedAt)
  }

  /** The record the store builds on create: the insert data, then the server fields, which win. */
  function NewDelivery(d: InsertDelivery, id: int, now: Timestamp): (r: Delivery)
    ensures DeliveryInsertOf(r) == d.(completedAt := None)
    ensures r.id == id
    ensures r.createdAt == Some(now)
    ensures r.completedAt == None
  {
    Delivery(
      id, d.invoiceNumber, d.customerId, d.agentId, d.deliveryType, d.status, d.items,
      d.totalAmount, d.paymentMethod, d.paymentStatus, d.deliveryAddress, d.estimatedTime,
      d.actualTime, d.photoProof, d.notes, d.branchId, Some(now), None)
  }

  /** The client-supplied part of a stored Staff. */
  function StaffInsertOf(r: Staff): InsertStaff {
    InsertStaff(
      r.fullName, r.idNumber, r.phone, r.email, r.role, r.department, r.branchId,
      r.nextOfKinName, r.nextOfKinPhone, r.nextOfKinAddress, r.basicPay, r.maritalStatus,
      r.dependents, r.medicalConditions, r.currentAddress, r.isActive)
  }

  /** The record the store builds on create: the insert data, then the server fields, which win. */
  function NewStaff(d: InsertStaff, id: int, now: Timestamp): (r: Staff)
    ensures StaffInsertOf(r) == d
    ensures r.id == id
    ensures r.hiredAt == Some(now)
  {
    Staff(
      id, d.fullName, d.idNumber, d.phone, d.email, d.role, d.department, d.branchId,
      d.nextOfKinName, d.nextOfKinPhone, d.nextOfKinAddress, d.basicPay, d.maritalStatus,
      d.dependents, d.medicalConditions, d.currentAddress, d.isActive, Some(now))
  }

  /** The client-supplied part of a stored LeaveRequest. */
  function LeaveRequestInsertOf(r: LeaveRequest): InsertLeaveRequest {
    InsertLeaveRequest(
      r.staffId, r.leaveType, r.startDate, r.endDate, r.days, r.reason, r.status, r.approvedBy,
      r.reviewedAt)
  }

  /** The record the store builds on create: the insert data, then the server fields, which win. */
  function NewLeaveRequest(d: InsertLeaveRequest, id: int, now: Timestamp): (r: LeaveRequest)
    ensures LeaveRequestInsertOf(r) == d.(reviewedAt := None)
    ensures r.id == id
    ensures r.requestedAt == Some(now)
    ensures r.reviewedAt == None
  {
    LeaveRequest(
      id, d.staffId, d.leaveType, d.startDate, d.endDate, d.days, d.reason, d.status,
      d.approvedBy, Some(now), None)
  }

  /** The client-supplied part of a stored Attendance. */
  function AttendanceInsertOf(r: Attendance): InsertAttendance {
    InsertAttendance(
      r.staffId, r.date, r.clockIn, r.clockOut, r.clockInLat, r.clockInLng, r.clockOutLat,
      r.clockOutLng, r.isLate, r.notes)
  }

  /** The record the store builds on create: the insert data, then the server fields, which win. */
  function NewAttendance(d: InsertAttendance, id: int): (r: Attendance)
    ensures AttendanceInsertOf(r) == d
    ensures r.id == id
  {
    Attendance(
      id, d.staffId, d.date, d.clockIn, d.clockOut, d.clockInLat, d.clockInLng, d.clockOutLat,
      d.clockOutLng, d.isLate, d.notes)
  }

  /** The patch that names no field. */
  const NoAgentChange := AgentPatch(
    None, None, None, None, None, None, None, None, None, None, None, None, None)

  /** The patch that names every field, with the values of `b`. */
  function FullAgentPatch(b: Agent): AgentPatch {
    AgentPatch(
      Some(b.id), Some(b.name), Some(b.phone), Some(b.agentType), Some(b.agentCategory),
      Some(b.status), Some(b.tasksCompleted), Some(b.rating), Some(b.currentLat),
      Some(b.currentLng), Some(b.branchId), Some(b.isActive), Some(b.createdAt))
  }

  /** `{ ...a, ...p }`: a field the patch names takes the patch value (null and `id` included);
      every other field keeps its value. */
  function MergeAgent(a: Agent, p: AgentPatch): (r: Agent)
    ensures p == NoAgentChange ==> r == a
    ensures forall b :: p == FullAgentPatch(b) ==> r == b
    ensures p.status.Some? && p.(status := None) == NoAgentChange ==> r == a.(status := p.status.value)
  {
    Agent(
      Pick(p.id, a.id), Pick(p.name, a.name), Pick(p.phone, a.phone),
      Pick(p.agentType, a.agentType), Pick(p.agentCategory, a.agentCategory),
      Pick(p.status, a.status), Pick(p.tasksCompleted, a.tasksCompleted),
      Pick(p.rating, a.rating), Pick(p.currentLat, a.currentLat),
      Pick(p.currentLng, a.currentLng), Pick(p.branchId, a.branchId),
      Pick(p.isActive, a.isActive), Pick(p.createdAt, a.createdAt))
  }

  /** Patch `p`, then patch `q`: the fields `q` names are taken from `q`, the rest from `p`. */
  function ThenAgent(p: AgentPatch, q: AgentPatch): AgentPatch {
    AgentPatch(
      Later(p.id, q.id), Later(p.name, q.name), Later(p.phone, q.phone),
      Later(p.agentType, q.agentType), Later(p.agentCategory, q.agentCategory),
      Later(p.status, q.status), Later(p.tasksCompleted, q.tasksCompleted),
      Later(p.rating, q.rating), Later(p.currentLat, q.currentLat),
      Later(p.currentLng, q.currentLng), Later(p.branchId, q.branchId),
      Later(p.isActive, q.isActive), Later(p.createdAt, q.createdAt))
  }

  /** Two updates in a row amount to one update with the combined patch; in particular a
      repeated update changes nothing more. */
  lemma MergeAgentTwice(a: Agent, p: AgentPatch, q: AgentPatch)
    ensures MergeAgent(MergeAgent(a, p), q) == MergeAgent(a, ThenAgent(p, q))
    ensures MergeAgent(MergeAgent(a, p), p) == MergeAgent(a, p)
  {
    assert ThenAgent(p, p) == p;
  }

  /** The patch that names no field. */
  const NoDeliveryChange := DeliveryPatch(
    None, None, None, None, None, None, None, None, None, None, None, None, None, None, None,
    None, None, None)

  /** The patch that names every field, with the values of `b`. */
  function FullDeliveryPatch(b: Delivery): DeliveryPatch {
    DeliveryPatch(
      Some(b.id), Some(b.invoiceNumber), Some(b.customerId), Some(b.agentId),
      Some(b.deliveryType), Some(b.status), Some(b.items), Some(b.totalAmount),
      Some(b.paymentMethod), Some(b.paymentStatus), Some(b.deliveryAddress),
      Some(b.estimatedTime), Some(b.actualTime), Some(b.photoProof), Some(b.notes),
      Some(b.branchId), Some(b.createdAt), Some(b.completedAt))
  }

  /** `{ ...a, ...p }`: a field the patch names takes the patch value (null and `id` included);
      every other field keeps its value. */
  function MergeDelivery(a: Delivery, p: DeliveryPatch): (r: Delivery)
    ensures p == NoDeliveryChange ==> r == a
    ensures forall b :: p == FullDeliveryPatch(b) ==> r == b
    ensures p.status.Some? && p.(status := None) == NoDeliveryChange ==> r == a.(status := p.status.value)
  {
    Delivery(
      Pick(p.id, a.id), Pick(p.invoiceNumber, a.invoiceNumber), Pick(p.customerId, a.customerId),
      Pick(p.agentId, a.agentId), Pick(p.deliveryType, a.deliveryType), Pick(p.status, a.status),
      Pick(p.items, a.items), Pick(p.totalAmount, a.totalAmount),
      Pick(p.paymentMethod, a.paymentMethod), Pick(p.paymentStatus, a.paymentStatus),
      Pick(p.deliveryAddress, a.deliveryAddress), Pick(p.estimatedTime, a.estimatedTime),
      Pick(p.actualTime, a.actualTime), Pick(p.photoProof, a.photoProof), Pick(p.notes, a.notes),
      Pick(p.branchId, a.branchId), Pick(p.createdAt, a.createdAt),
      Pick(p.completedAt, a.completedAt))
  }

  /** Patch `p`, then patch `q`: the fields `q` names are taken from `q`, the rest from `p`. */
  function ThenDelivery(p: DeliveryPatch, q: DeliveryPatch): DeliveryPatch {
    DeliveryPatch(
      Later(p.id, q.id), Later(p.invoiceNumber, q.invoiceNumber),
      Later(p.customerId, q.customerId), Later(p.agentId, q.agentId),
      Later(p.deliveryType, q.deliveryType), Later(p.status, q.status), Later(p.items, q.items),
      Later(p.totalAmount, q.totalAmount), Later(p.paymentMethod, q.paymentMethod),
      Later(p.paymentStatus, q.paymentStatus), Later(p.deliveryAddress, q.deliveryAddress),
      Later(p.estimatedTime, q.estimatedTime), Later(p.actualTime, q.actualTime),
      Later(p.photoProof, q.photoProof), Later(p.notes, q.notes), Later(p.branchId, q.branchId),
      Later(p.createdAt, q.createdAt), Later(p.completedAt, q.completedAt))
  }

  /** Two updates in a row amount to one update with the combined patch; in particular a
      repeated update changes nothing more. */
  lemma MergeDeliveryTwice(a: Delivery, p: DeliveryPatch, q: DeliveryPatch)
    ensures MergeDelivery(MergeDelivery(a, p), q) == MergeDelivery(a, ThenDelivery(p, q))
    ensures MergeDelivery(MergeDelivery(a, p), p) == MergeDelivery(a, p)
  {
    assert ThenDelivery(p, p) == p;
  }

  /** The patch that names no field. */
  const NoStaffChange := StaffPatch(
    None, None, None, None, None, None, None, None, None, None, None, None, None, None, None,
    None, None, None)

  /** The patch that names every field, with the values of `b`. */
  function FullStaffPatch(b: Staff): StaffPatch {
    StaffPatch(
      Some(b.id), Some(b.fullName), Some(b.idNumber), Some(b.phone), Some(b.email), Some(b.role),
      Some(b.department), Some(b.branchId), Some(b.nextOfKinName), Some(b.nextOfKinPhone),
      Some(b.nextOfKinAddress), Some(b.basicPay), Some(b.maritalStatus), Some(b.dependents),
      Some(b.medicalConditions), Some(b.currentAddress), Some(b.isActive), Some(b.hiredAt))
  }

  /** `{ ...a, ...p }`: a field the patch names takes the patch value (null and `id` included);
      every other field keeps its value. */
  function MergeStaff(a: Staff, p: StaffPatch): (r: Staff)
    ensures p == NoStaffChange ==> r == a
    ensures forall b :: p == FullStaffPatch(b) ==> r == b
    ensures p.isActive.Some? && p.(isActive := None) == NoStaffChange ==> r == a.(isActive := p.isActive.value)
  {
    Staff(
      Pick(p.id, a.id), Pick(p.fullName, a.fullName), Pick(p.idNumber, a.idNumber),
      Pick(p.phone, a.phone), Pick(p.email, a.email), Pick(p.role, a.role),
      Pick(p.department, a.department), Pick(p.branchId, a.branchId),
      Pick(p.nextOfKinName, a.nextOfKinName), Pick(p.nextOfKinPhone, a.nextOfKinPhone),
      Pick(p.nextOfKinAddress, a.nextOfKinAddress), Pick(p.basicPay, a.basicPay),
      Pick(p.maritalStatus, a.maritalStatus), Pick(p.dependents, a.dependents),
      Pick(p.medicalConditions, a.medicalConditions), Pick(p.currentAddress, a.currentAddress),
      Pick(p.isActive, a.isActive), Pick(p.hiredAt, a.hiredAt))
  }

  /** Patch `p`, then patch `q`: the fields `q` names are taken from `q`, the rest from `p`. */
  function ThenStaff(p: StaffPatch, q: StaffPatch): StaffPatch {
    StaffPatch(
      Later(p.id, q.id), Later(p.fullName, q.fullName), Later(p.idNumber, q.idNumber),
      Later(p.phone, q.phone), Later(p.email, q.email), Later(p.role, q.role),
      Later(p.department, q.department), Later(p.branchId, q.branchId),
      Later(p.nextOfKinName, q.nextOfKinName), Later(p.nextOfKinPhone, q.nextOfKinPhone),
      Later(p.nextOfKinAddress, q.nextOfKinAddress), Later(p.basicPay, q.basicPay),
      Later(p.maritalStatus, q.maritalStatus), Later(p.dependents, q.dependents),
      Later(p.medicalConditions, q.medicalConditions), Later(p.currentAddress, q.currentAddress),
      Later(p.isActive, q.isActive), Later(p.hiredAt, q.hiredAt))
  }

  /** Two updates in a row amount to one update with the combined patch; in particular a
      repeated update changes nothing more. */
  lemma MergeStaffTwice(a: Staff, p: StaffPatch, q: StaffPatch)
    ensures MergeStaff(MergeStaff(a, p), q) == MergeStaff(a, ThenStaff(p, q))
    ensures MergeStaff(MergeStaff(a, p), p) == MergeStaff(a, p)
  {
    assert ThenStaff(p, p) == p;
  }

  /** The patch that names no field. */
  const NoLeaveRequestChange := LeaveRequestPatch(
    None, None, None, None, None, None, None, None, None, None, None)

  /** The patch that names every field, with the values of `b`. */
  function FullLeaveRequestPatch(b: LeaveRequest): LeaveRequestPatch {
    LeaveRequestPatch(
      Some(b.id), Some(b.staffId), Some(b.leaveType), Some(b.startDate), Some(b.endDate),
      Some(b.days), Some(b.reason), Some(b.status), Some(b.approvedBy), Some(b.requestedAt),
      Some(b.reviewedAt))
  }

  /** `{ ...a, ...p }`: a field the patch names takes the patch value (null and `id` included);
      every other field keeps its value. */
  function MergeLeaveRequest(a: LeaveRequest, p: LeaveRequestPatch): (r: LeaveRequest)
    ensures p == NoLeaveRequestChange ==> r == a
    ensures forall b :: p == FullLeaveRequestPatch(b) ==> r == b
    ensures p.status.Some? && p.(status := None) == NoLeaveRequestChange ==> r == a.(status := p.status.value)
  {
    LeaveRequest(
      Pick(p.id, a.id), Pick(p.staffId, a.staffId), Pick(p.leaveType, a.leaveType),
      Pick(p.startDate, a.startDate), Pick(p.endDate, a.endDate), Pick(p.days, a.days),
      Pick(p.reason, a.reason), Pick(p.status, a.status), Pick(p.approvedBy, a.approvedBy),
      Pick(p.requestedAt, a.requestedAt), Pick(p.reviewedAt, a.reviewedAt))
  }

  /** Patch `p`, then patch `q`: the fields `q` names are taken from `q`, the rest from `p`. */
  function ThenLeaveRequest(p: LeaveRequestPatch, q: LeaveRequestPatch): LeaveRequestPatch {
    LeaveRequestPatch(
      Later(p.id, q.id), Later(p.staffId, q.staffId), Later(p.leaveType, q.leaveType),
      Later(p.startDate, q.startDate), Later(p.endDate, q.endDate), Later(p.days, q.days),
      Later(p.reason, q.reason), Later(p.status, q.status), Later(p.approvedBy, q.approvedBy),
      Later(p.requestedAt, q.requestedAt), Later(p.reviewedAt, q.reviewedAt))
  }

  /** Two updates in a row amount to one update with the combined patch; in particular a
      repeated update changes nothing more. */
  lemma MergeLeaveRequestTwice(a: LeaveRequest, p: LeaveRequestPatch, q: LeaveRequestPatch)
    ensures MergeLeaveRequest(MergeLeaveRequest(a, p), q) == MergeLeaveRequest(a, ThenLeaveRequest(p, q))
    ensures MergeLeaveRequest(MergeLeaveRequest(a, p), p) == MergeLeaveRequest(a, p)
  {
    assert ThenLeaveRequest(p, p) == p;
  }

  /** The patch that names no field. */
  const NoAttendanceChange := AttendancePatch(
    None, None, None, None, None, None, None, None, None, None, None)

  /** The patch that names every field, with the values of `b`. */
  function FullAttendancePatch(b: Attendance): AttendancePatch {
    AttendancePatch(
      Some(b.id), Some(b.staffId), Some(b.date), Some(b.clockIn), Some(b.clockOut),
      Some(b.clockInLat), Some(b.clockInLng), Some(b.clockOutLat), Some(b.clockOutLng),
      Some(b.isLate), Some(b.notes))
  }

  /** `{ ...a, ...p }`: a field the patch names takes the patch value (null and `id` included);
      every other field keeps its value. */
  function MergeAttendance(a: Attendance, p: AttendancePatch): (r: Attendance)
    ensures p == NoAttendanceChange ==> r == a
    ensures forall b :: p == FullAttendancePatch(b) ==> r == b
    ensures p.clockOut.Some? && p.(clockOut := None) == NoAttendanceChange ==> r == a.(clockOut := p.clockOut.value)
  {
    Attendance(
      Pick(p.id, a.id), Pick(p.staffId, a.staffId), Pick(p.date, a.date),
      Pick(p.clockIn, a.clockIn), Pick(p.clockOut, a.clockOut), Pick(p.clockInLat, a.clockInLat),
      Pick(p.clockInLng, a.clockInLng), Pick(p.clockOutLat, a.clockOutLat),
      Pick(p.clockOutLng, a.clockOutLng), Pick(p.isLate, a.isLate), Pick(p.notes, a.notes))
  }

  /** Patch `p`, then patch `q`: the fields `q` names are taken from `q`, the rest from `p`. */
  function ThenAttendance(p: AttendancePatch, q: AttendancePatch): AttendancePatch {
    AttendancePatch(
      Later(p.id, q.id), Later(p.staffId, q.staffId), Later(p.date, q.date),
      Later(p.clockIn, q.clockIn), Later(p.clockOut, q.clockOut),
      Later(p.clockInLat, q.clockInLat), Later(p.clockInLng, q.clockInLng),
      Later(p.clockOutLat, q.clockOutLat), Later(p.clockOutLng, q.clockOutLng),
      Later(p.isLate, q.isLate), Later(p.notes, q.notes))
  }

  /** Two updates in a row amount to one update with the combined patch; in particular a
      repeated update changes nothing more. */
  lemma MergeAttendanceTwice(a: Attendance, p: AttendancePatch, q: AttendancePatch)
    ensures MergeAttendance(MergeAttendance(a, p), q) == MergeAttendance(a, ThenAttendance(p, q))
    ensures MergeAttendance(MergeAttendance(a, p), p) == MergeAttendance(a, p)
  {
    assert ThenAttendance(p, p) == p;
  }

}