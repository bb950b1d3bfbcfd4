/**
 * The delivery table's row logic: customer and agent lookups, the status badge's class and
 * label, the ETA column, and how many rows are shown.
 */
module DeliveryTable {
  import opened Wrappers
  import opened Schema
  import opened Collections
  import opened Text
  import opened OrderedTable
  import opened Storage

  function CustomerHasId(id: int): Customer -> bool { (c: Customer) => c.id == id }

  function AgentHasId(id: int): Agent -> bool { (a: Agent) => a.id == id }

  /** `getCustomer`: the first customer with the given id, if any. */
  function FindCustomer(customers: seq<Customer>, id: int): (r: Option<Customer>)
    ensures r.None? <==> forall i :: 0 <= i < |customers| ==> customers[i].id != id
    ensures r.Some? ==> exists i :: 0 <= i < |customers| && customers[i] == r.value && r.value.id == id &&
                                    forall j :: 0 <= j < i ==> customers[j].id != id
  {
    FindFirst(customers, CustomerHasId(id))
  }

  /** `getAgent`: nothing for a missing or zero agent id, else the first agent with that id. */
  function FindAgent(agents: seq<Agent>, agentId: Option<int>): (r: Option<Agent>)
    ensures agentId.None? || agentId == Some(0) ==> r.None?
    ensures r.Some? ==> agentId.Some? && r.value.id == agentId.value != 0
    ensures r.Some? ==> exists i :: 0 <= i < |agents| && agents[i] == r.value &&
                                    forall j :: 0 <= j < i ==> agents[j].id != r.value.id
    ensures agentId.Some? && agentId.value != 0 ==>
              (r.None? <==> forall i :: 0 <= i < |agents| ==> agents[i].id != agentId.value)
  {
    if agentId.None? || agentId.value == 0 then None
    else FindFirst(agents, AgentHasId(agentId.value))
  }

  /** The customer column: the name, or "Unknown" for a missing customer or an empty name. */
  function CustomerName(c: Option<Customer>): (name: string)
    ensures name != ""
    ensures c.Some? && c.value.name != "" ==> name == c.value.name
    ensures c.None? || c.value.name == "" ==> name == "Unknown"
  {
    if c.Some? && c.value.name != "" then c.value.name else "Unknown"
  }

  /** The status badge's CSS class; any status other than the four known ones is styled as pending. */
  function StatusClass(status: string): (cls: string)
    ensures status in {"pending", "active", "completed", "overdue"} ==> cls == "status-" + status
    ensures status !in {"pending", "active", "completed", "overdue"} ==> cls == "status-pending"
  {
    match status
    case "active" => "status-active"
    case "completed" => "status-completed"
    case "overdue" => "status-overdue"
    case _ => "status-pending"
  }

  /** Of the declared delivery statuses only "cancelled" has no style of its own, and it is styled as pending. */
  lemma DeclaredStatusClasses(status: string)
    requires status in DeliveryStatuses
    ensures StatusClass(status) == if status == "cancelled" then "status-pending" else "status-" + status
  {
  }

  /** The status badge's text: the status with its first character upper-cased. */
  function StatusLabel(status: string): (text: string)
    ensures |text| == |status|
    ensures |status| > 0 ==> text[0] == UpperChar(status[0]) && text[1..] == status[1..]
    ensures |status| > 0 ==> !IsLower(text[0])
  {
    if status == [] then [] else [UpperChar(status[0])] + status[1..]
  }

  /** Labelling a label again changes nothing. */
  lemma StatusLabelIdempotent(status: string)
    ensures StatusLabel(StatusLabel(status)) == StatusLabel(status)
  {
    if status != [] {
      var l := StatusLabel(status);
      assert UpperChar(l[0]) == l[0];
      assert StatusLabel(l) == [l[0]] + l[1..];
    }
  }

  /** The ETA column. */
  datatype Eta =
    | CompletedEta               // "Completed"
    | NoEta                      // "-"
    | Overdue(minutes: int)      // "+<minutes> min", in red
    | Remaining(minutes: int)    // "<minutes> min", in green

  const MillisPerMinute := 60000
  const DefaultEstimate := 60

  /** Whole minutes elapsed between two instants, rounded down. */
  function ElapsedMinutes(now: Timestamp, created: Timestamp): (m: int)
    ensures m * MillisPerMinute <= now - created < (m + 1) * MillisPerMinute
  {
    (now - created) / MillisPerMinute
  }

  /** The estimate in minutes: `estimatedTime`, or 60 when it is missing or zero. */
  function EstimateOf(d: Delivery): (e: int)
    ensures e != 0
    ensures d.estimatedTime.Some? && d.estimatedTime.value != 0 ==> e == d.estimatedTime.value
    ensures d.estimatedTime.None? || d.estimatedTime == Some(0) ==> e == DefaultEstimate
  {
    match d.estimatedTime
    case Some(t) => if t != 0 then t else DefaultEstimate
    case None => DefaultEstimate
  }

  /** `getETA` at instant `now`; a missing creation time reads as the epoch. */
  function GetEta(d: Delivery, now: Timestamp): (eta: Eta)
    ensures d.status == Some("completed") <==> eta == CompletedEta
    ensures d.status == Some("pending") <==> eta == NoEta
    ensures eta.Overdue? ==>
              eta.minutes > 0 && ElapsedMinutes(now, d.createdAt.GetOr(0)) == EstimateOf(d) + eta.minutes
    ensures eta.Remaining? ==>
              eta.minutes >= 0 && ElapsedMinutes(now, d.createdAt.GetOr(0)) == EstimateOf(d) - eta.minutes
  {
    if d.status == Some("completed") then CompletedEta
    else if d.status == Some("pending") then NoEta
    else
      var elapsed := ElapsedMinutes(now, d.createdAt.GetOr(0));
      var estimated := EstimateOf(d);
      if elapsed > estimated then Overdue(elapsed - estimated) else Remaining(estimated - elapsed)
  }

  /** Minutes past the estimate: positive when overdue, zero or negative while time remains. */
  function Lateness(eta: Eta): int {
    match eta
    case Overdue(m) => m
    case Remaining(m) => -m
    case _ => 0
  }

  /** Whole minutes never run backwards. */
  lemma ElapsedMonotone(t1: Timestamp, t2: Timestamp, created: Timestamp)
    requires t1 <= t2
    ensures ElapsedMinutes(t1, created) <= ElapsedMinutes(t2, created)
  {
  }

  /** As time passes, a delivery in transit only gets later: overdue minutes grow, remaining ones shrink. */
  lemma EtaNeverImproves(d: Delivery, t1: Timestamp, t2: Timestamp)
    requires t1 <= t2
    ensures Lateness(GetEta(d, t1)) <= Lateness(GetEta(d, t2))
  {
    ElapsedMonotone(t1, t2, d.createdAt.GetOr(0));
  }

  /** The sample deliveries' ETAs: 30 minutes overdue, 25 minutes remaining, and "-" for the pending one. */
  lemma SeededEtas(now: Timestamp)
    ensures GetEta(SeedDeliveries(now)[0].value, now) == Overdue(30)
    ensures GetEta(SeedDeliveries(now)[1].value, now) == Remaining(25)
    ensures GetEta(SeedDeliveries(now)[2].value, now) == NoEta
  {
  }

  /** A limit is used only when it is truthy (present and non-zero). */
  predicate HasLimit(limit: Option<int>) { limit.Some? && limit.value != 0 }

  /** The rows shown: `slice(0, limit)` for a truthy limit (a negative one counts from the end), else all. */
  function DisplayDeliveries(deliveries: seq<Delivery>, limit: Option<int>): (r: seq<Delivery>)
    ensures |r| <= |deliveries| && r == deliveries[..|r|]
    ensures !HasLimit(limit) ==> r == deliveries
    ensures HasLimit(limit) && limit.value > 0 ==>
              |r| == if limit.value < |deliveries| then limit.value else |deliveries|
    ensures HasLimit(limit) && limit.value < 0 ==>
              |r| == if |deliveries| + limit.value > 0 then |deliveries| + limit.value else 0
  {
    if !HasLimit(limit) then deliveries
    else
      var n := |deliveries|;
      var end := if limit.value < 0 then (if n + limit.value > 0 then n + limit.value else 0)
                 else if limit.value < n then limit.value else n;
      deliveries[..end]
  }

  /** The "Showing 1 to n of m" footer appears only without a limit and with something to show. */
  function ShowsPagination(deliveries: seq<Delivery>, limit: Option<int>): (shown: bool)
    ensures shown <==> !HasLimit(limit) && |deliveries| > 0
  {
    !HasLimit(limit) && |DisplayDeliveries(deliveries, limit)| > 0
  }
}
