/**
 * The live tracking map's view logic: each agent joined with its active deliveries and
 * their package count, the three agent filters, the badge / description / marker shown
 * for an agent, and the cycling of marker positions.
 */
module LiveTrackingMap {
  import opened Wrappers
  import opened Schema
  import opened Collections
  import opened Text
  import opened OrderedTable
  import opened Storage

  /** An agent together with its active deliveries and how many packages they carry. */
  datatype AgentWithDeliveries = AgentWithDeliveries(agent: Agent, deliveries: seq<Delivery>, totalPackages: nat)

  /** A delivery counts for agent `id` when it is assigned to that agent and its status is exactly "active". */
  function ActiveFor(id: int): Delivery -> bool {
    (d: Delivery) => d.agentId == Some(id) && d.status == Some("active")
  }

  /** The deliveries shown for an agent, in their original order. */
  function ActiveDeliveriesOf(id: int, deliveries: seq<Delivery>): (r: seq<Delivery>)
    ensures IsSubsequence(r, deliveries)
    ensures forall i :: 0 <= i < |r| ==> r[i].agentId == Some(id) && r[i].status == Some("active")
    ensures forall i :: 0 <= i < |deliveries| && deliveries[i].agentId == Some(id) && deliveries[i].status == Some("active")
              ==> deliveries[i] in r
    ensures forall i :: 0 <= i < |deliveries| && deliveries[i].agentId == Some(id) && deliveries[i].status == Some("active")
              ==> multiset(r)[deliveries[i]] == multiset(deliveries)[deliveries[i]]
  {
    Filter(deliveries, ActiveFor(id))
  }

  /** A delivery's package count: its item list's length, or 1 when `items` is not a list. */
  function ItemCount(d: Delivery): nat {
    match d.items
    case ItemList(list) => |list|
    case NotAList => 1
  }

  /** The left-to-right sum of the package counts, starting from 0. */
  function TotalPackages(ds: seq<Delivery>): (n: nat)
    ensures ds == [] ==> n == 0
    ensures |ds| == 1 ==> n == ItemCount(ds[0])
  {
    if ds == [] then 0 else TotalPackages(ds[..|ds| - 1]) + ItemCount(ds[|ds| - 1])
  }

  /** The package count of two lists one after the other is the sum of their counts. */
  lemma {:induction false} TotalPackagesConcat(a: seq<Delivery>, b: seq<Delivery>)
    ensures TotalPackages(a + b) == TotalPackages(a) + TotalPackages(b)
  {
    if b == [] {
      assert a + b == a;
    } else {
      assert (a + b)[..|a + b| - 1] == a + b[..|b| - 1];
      TotalPackagesConcat(a, b[..|b| - 1]);
    }
  }

  /** Counting from the front gives the same total: the first delivery's packages plus the rest's. */
  lemma TotalPackagesFirst(ds: seq<Delivery>)
    requires ds != []
    ensures TotalPackages(ds) == ItemCount(ds[0]) + TotalPackages(ds[1..])
  {
    assert ds == [ds[0]] + ds[1..];
    TotalPackagesConcat([ds[0]], ds[1..]);
  }

  /** When every delivery carries at least one package, there are at least as many packages as deliveries. */
  lemma {:induction false} TotalPackagesAtLeastCount(ds: seq<Delivery>)
    requires forall i :: 0 <= i < |ds| ==> ItemCount(ds[i]) >= 1
    ensures TotalPackages(ds) >= |ds|
  {
    if ds != [] {
      TotalPackagesAtLeastCount(ds[..|ds| - 1]);
    }
  }

  /** One agent joined with its deliveries. */
  function Join(agent: Agent, deliveries: seq<Delivery>): AgentWithDeliveries {
    var mine := ActiveDeliveriesOf(agent.id, deliveries);
    AgentWithDeliveries(agent, mine, TotalPackages(mine))
  }

  /** `agentsWithDeliveries`: one joined entry per agent, in the same order, every agent field unchanged. */
  function WithDeliveries(agents: seq<Agent>, deliveries: seq<Delivery>): (r: seq<AgentWithDeliveries>)
    ensures |r| == |agents|
    ensures forall i :: 0 <= i < |r| ==>
              && r[i].agent == agents[i]
              && r[i].deliveries == ActiveDeliveriesOf(agents[i].id, deliveries)
              && r[i].totalPackages == TotalPackages(r[i].deliveries)
  {
    seq(|agents|, i requires 0 <= i < |agents| => Join(agents[i], deliveries))
  }

  /** A joined entry whose package count is that of its own deliveries. */
  predicate Consistent(a: AgentWithDeliveries) {
    a.totalPackages == TotalPackages(a.deliveries)
  }

  /** An agent is on a delivery when it is busy and has at least one active delivery. */
  predicate OnDeliveryNow(a: AgentWithDeliveries) {
    a.agent.status == Some("busy") && |a.deliveries| > 0
  }

  datatype FilterType = All | OnDelivery | AvailableOnly

  function Selects(f: FilterType): AgentWithDeliveries -> bool {
    (a: AgentWithDeliveries) =>
      match f
      case All => true
      case OnDelivery => OnDeliveryNow(a)
      case AvailableOnly => a.agent.status == Some("available")
  }

  /** The agents listed and drawn under a filter, in their original order. */
  function FilterAgents(f: FilterType, agents: seq<AgentWithDeliveries>): (r: seq<AgentWithDeliveries>)
    ensures IsSubsequence(r, agents)
    ensures f == All ==> r == agents
    ensures f == OnDelivery ==>
              && (forall i :: 0 <= i < |r| ==> OnDeliveryNow(r[i]))
              && (forall i :: 0 <= i < |agents| && OnDeliveryNow(agents[i]) ==> agents[i] in r)
    ensures f == AvailableOnly ==>
              && (forall i :: 0 <= i < |r| ==> r[i].agent.status == Some("available"))
              && (forall i :: 0 <= i < |agents| && agents[i].agent.status == Some("available") ==> agents[i] in r)
  {
    if f == All then
      FilterAllPass(agents, Selects(f));
      Filter(agents, Selects(f))
    else
      Filter(agents, Selects(f))
  }

  /** The badge beside an agent's name. */
  datatype Badge = Stops(count: nat) | AvailableBadge | OfflineBadge

  function StatusBadge(a: AgentWithDeliveries): (b: Badge)
    ensures b.Stops? <==> a in FilterAgents(OnDelivery, [a])
    ensures b.Stops? ==> b.count == |a.deliveries| >= 1
    ensures b == AvailableBadge <==> a in FilterAgents(AvailableOnly, [a]) && !b.Stops?
    ensures b == OfflineBadge <==> a.agent.status != Some("available") && !OnDeliveryNow(a)
  {
    if OnDeliveryNow(a) then Stops(|a.deliveries|)
    else if a.agent.status == Some("available") then AvailableBadge
    else OfflineBadge
  }

  /** The line under an agent's name; a busy agent needs a non-zero package count to show it. */
  function StatusDescription(a: AgentWithDeliveries): (s: string)
    ensures a.agent.status == Some("busy") && a.totalPackages > 0 ==>
              s == NatToString(a.totalPackages) + " Total Packages"
    ensures s == "Ready for assignment" <==> a.agent.status == Some("available")
    ensures s == "Currently offline" <==>
              a.agent.status != Some("available") && !(a.agent.status == Some("busy") && a.totalPackages > 0)
  {
    if a.agent.status == Some("busy") && a.totalPackages != 0 then
      var s := NatToString(a.totalPackages) + " Total Packages";
      assert s[|s| - 1] == 's';
      s
    else if a.agent.status == Some("available") then "Ready for assignment"
    else "Currently offline"
  }

  /** The map marker: a blue disc with the stop count, a green or a grey person icon. */
  datatype Marker = CountMarker(stops: nat) | AvailableMarker | OfflineMarker

  function MarkerIcon(a: AgentWithDeliveries): (m: Marker)
    ensures m.CountMarker? <==> StatusBadge(a).Stops?
    ensures m.CountMarker? ==> m.stops == StatusBadge(a).count
    ensures m == AvailableMarker <==> StatusBadge(a) == AvailableBadge
    ensures m == OfflineMarker <==> StatusBadge(a) == OfflineBadge
  {
    if a.agent.status == Some("busy") && |a.deliveries| > 0 then CountMarker(|a.deliveries|)
    else if a.agent.status == Some("available") then AvailableMarker
    else OfflineMarker
  }

  /** Badge and description agree when every active delivery carries at least one package. */
  lemma DescriptionAgreesWithBadge(a: AgentWithDeliveries)
    requires Consistent(a)
    requires forall i :: 0 <= i < |a.deliveries| ==> ItemCount(a.deliveries[i]) >= 1
    ensures StatusBadge(a).Stops? <==> StatusDescription(a) == NatToString(a.totalPackages) + " Total Packages"
    ensures StatusBadge(a) == OfflineBadge <==> StatusDescription(a) == "Currently offline"
  {
    TotalPackagesAtLeastCount(a.deliveries);
    var s := NatToString(a.totalPackages) + " Total Packages";
    assert s[|s| - 1] == 's';
  }

  /** A busy agent whose only active delivery has an empty item list shows "1 Stops" yet "Currently offline". */
  lemma BadgeAndDescriptionCanDisagree(agent: Agent, d: Delivery)
    requires agent.status == Some("busy") && d.agentId == Some(agent.id) && d.status == Some("active")
    requires d.items == ItemList([])
    ensures StatusBadge(Join(agent, [d])) == Stops(1)
    ensures StatusDescription(Join(agent, [d])) == "Currently offline"
  {
    var j := Join(agent, [d]);
    assert d in j.deliveries;
    assert [d][..0] == [];
  }

  /** A position on the mock map, as CSS percentages. */
  datatype Position = Position(top: string, left: string)

  const Positions: seq<Position> := [
    Position("25%", "30%"), Position("45%", "60%"), Position("70%", "40%"),
    Position("35%", "75%"), Position("60%", "25%")]

  /** The marker position of the `index`-th drawn agent. */
  function MarkerPosition(index: nat): (p: Position)
    ensures p in Positions
  {
    Positions[index % |Positions|]
  }

  /** Two drawn agents share a marker position exactly when their indices agree modulo five. */
  lemma MarkerPositionsCycle(i: nat, j: nat)
    ensures MarkerPosition(i) == MarkerPosition(j) <==> i % 5 == j % 5
    ensures MarkerPosition(i + 5) == MarkerPosition(i)
  {
    assert forall m, n :: 0 <= m < 5 && 0 <= n < 5 && Positions[m] == Positions[n] ==> m == n;
  }

  /** A busy agent with no active delivery, an available one with exactly one, and an offline one:
      the first shows "Offline", and nobody is on a delivery. */
  lemma MapOfThree(a0: Agent, a1: Agent, a2: Agent, d0: Delivery, d1: Delivery, d2: Delivery)
    requires a0.status == Some("busy") && a1.status == Some("available") && a2.status == Some("offline")
    requires !ActiveFor(a0.id)(d0) && !ActiveFor(a0.id)(d1) && !ActiveFor(a0.id)(d2)
    requires !ActiveFor(a1.id)(d0) && ActiveFor(a1.id)(d1) && !ActiveFor(a1.id)(d2)
    ensures var joined := WithDeliveries([a0, a1, a2], [d0, d1, d2]);
            && StatusBadge(joined[0]) == OfflineBadge
            && StatusBadge(joined[1]) == AvailableBadge
            && |joined[1].deliveries| == 1
            && FilterAgents(OnDelivery, joined) == []
  {
    var joined := WithDeliveries([a0, a1, a2], [d0, d1, d2]);
    JoinedOfThree(a0, a1, a2, d0, d1, d2);
    BadgesOfThree(joined);
  }

  /** A busy agent with nothing active shows "Offline", an available one "Available", and with an
      offline third agent nobody is on a delivery. */
  lemma BadgesOfThree(xs: seq<AgentWithDeliveries>)
    requires |xs| == 3
    requires xs[0].agent.status == Some("busy") && xs[0].deliveries == []
    requires xs[1].agent.status == Some("available") && xs[2].agent.status == Some("offline")
    ensures StatusBadge(xs[0]) == OfflineBadge && StatusBadge(xs[1]) == AvailableBadge
    ensures FilterAgents(OnDelivery, xs) == []
  {
    assert !OnDeliveryNow(xs[0]) && !OnDeliveryNow(xs[1]) && !OnDeliveryNow(xs[2]);
    FilterCountThree(xs[0], xs[1], xs[2], Selects(OnDelivery));
    assert xs == [xs[0], xs[1], xs[2]];
  }

  /** The joined entries of `MapOfThree`: the busy agent has no active delivery, the available one has one. */
  lemma JoinedOfThree(a0: Agent, a1: Agent, a2: Agent, d0: Delivery, d1: Delivery, d2: Delivery)
    requires !ActiveFor(a0.id)(d0) && !ActiveFor(a0.id)(d1) && !ActiveFor(a0.id)(d2)
    requires !ActiveFor(a1.id)(d0) && ActiveFor(a1.id)(d1) && !ActiveFor(a1.id)(d2)
    ensures var joined := WithDeliveries([a0, a1, a2], [d0, d1, d2]);
            && joined[0].agent == a0 && joined[0].deliveries == []
            && joined[1].agent == a1 && |joined[1].deliveries| == 1
            && |joined| == 3 && joined[2].agent == a2
  {
    FilterCountThree(d0, d1, d2, ActiveFor(a0.id));
    FilterCountThree(d0, d1, d2, ActiveFor(a1.id));
  }

  /** On the sample data nobody is on a delivery: the busy agent's only delivery is overdue, not
      active, so that agent shows "Offline", while the available agent carries the active one. */
  lemma SeededAgentsOnMap(now: Timestamp)
    ensures var joined := WithDeliveries(Values(SeedAgents(now)), Values(SeedDeliveries(now)));
            && StatusBadge(joined[0]) == OfflineBadge
            && StatusBadge(joined[1]) == AvailableBadge
            && |joined[1].deliveries| == 1
            && FilterAgents(OnDelivery, joined) == []
  {
    var a := SeedAgents(now);
    var d := SeedDeliveries(now);
    assert Values(a) == [a[0].value, a[1].value, a[2].value];
    assert Values(d) == [d[0].value, d[1].value, d[2].value];
    MapOfThree(a[0].value, a[1].value, a[2].value, d[0].value, d[1].value, d[2].value);
  }
}
