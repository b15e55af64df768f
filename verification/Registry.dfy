/** The directory's node registry: registration, staleness, and the choice of a path. */
module Registry {
  import opened Common

  type uint64 = x: int | 0 <= x < 0x1_0000_0000_0000_0000

  datatype NodeType = Entry | Middle | Exit

  datatype Address = Address(ip: seq<byte>, port: uint16)

  /** 127.0.0.0/8, or ::1. */
  predicate Loopback(ip: seq<byte>) {
    (|ip| == 4 && ip[0] == 127) || (|ip| == 16 && ip == seq(15, _ => 0) + [1])
  }

  datatype Descriptor = Descriptor(
    nodeId: string, nodeType: NodeType, address: Address, bandwidth: uint64, operator: Option<string>)

  datatype NodeEntry = NodeEntry(descriptor: Descriptor, registeredAt: nat, lastHeartbeat: nat, metrics: Option<nat>)

  type Nodes = map<string, NodeEntry>

  /* Registration and staleness. */

  /** A node comes (back) in: whoever else claims its address goes. */
  function Registered(nodes: Nodes, d: Descriptor, now: nat): Nodes {
    var kept := map id | id in nodes && (id == d.nodeId || nodes[id].descriptor.address != d.address) :: nodes[id];
    if d.nodeId in kept then kept[d.nodeId := kept[d.nodeId].(descriptor := d, lastHeartbeat := now)]
    else kept[d.nodeId := NodeEntry(d, now, now, None)]
  }

  /** `duration_since` is zero for an instant that is still to come. */
  predicate Stale(e: NodeEntry, now: nat, timeout: nat) {
    now > e.lastHeartbeat && now - e.lastHeartbeat > timeout
  }

  function Unstale(nodes: Nodes, now: nat, timeout: nat): Nodes {
    map id | id in nodes && !Stale(nodes[id], now, timeout) :: nodes[id]
  }

  datatype Op =
    | Register(descriptor: Descriptor)
    | Heartbeat(nodeId: string, metrics: Option<nat>)
    | Remove(nodeId: string)
    | Cleanup(timeout: nat)

  function After(nodes: Nodes, op: Op, now: nat): Nodes {
    match op
    case Register(d) => Registered(nodes, d, now)
    case Heartbeat(id, metrics) =>
      if id !in nodes then nodes
      else nodes[id := nodes[id].(lastHeartbeat := now,
                                  metrics := if metrics.Some? then metrics else nodes[id].metrics)]
    case Remove(id) => nodes - {id}
    case Cleanup(timeout) => Unstale(nodes, now, timeout)
  }

  /** Keys are the nodes' own ids, socket addresses are distinct, and nobody was last seen before it
      registered or after `now`. */
  ghost predicate Sound(nodes: Nodes, now: nat) {
    && (forall id {:trigger nodes[id]} :: id in nodes ==>
          nodes[id].descriptor.nodeId == id && nodes[id].registeredAt <= nodes[id].lastHeartbeat <= now)
    && (forall a, b {:trigger nodes[a], nodes[b]} :: a in nodes && b in nodes && a != b ==>
          nodes[a].descriptor.address != nodes[b].descriptor.address)
  }

  lemma {:induction false} RegisteredIsSound(nodes: Nodes, d: Descriptor, was: nat, now: nat)
    requires Sound(nodes, was) && was <= now
    ensures Sound(Registered(nodes, d, now), now)
  {
    var nodes' := Registered(nodes, d, now);
    forall id | id in nodes' && id != d.nodeId
      ensures id in nodes && nodes'[id] == nodes[id] && nodes[id].descriptor.address != d.address
    {
    }
    forall a, b | a in nodes' && b in nodes' && a != b
      ensures nodes'[a].descriptor.address != nodes'[b].descriptor.address
    {
      if a != d.nodeId && b != d.nodeId {
        assert nodes[a].descriptor.address != nodes[b].descriptor.address;
      }
    }
  }

  /** Dropping nodes, or changing when one was last seen. */
  lemma {:induction false} FewerIsSound(nodes: Nodes, nodes': Nodes, was: nat, now: nat)
    requires Sound(nodes, was) && was <= now
    requires forall id {:trigger nodes'[id]} :: id in nodes' ==>
               id in nodes && nodes'[id].descriptor == nodes[id].descriptor
               && nodes'[id].registeredAt == nodes[id].registeredAt
               && (nodes'[id].lastHeartbeat == nodes[id].lastHeartbeat || nodes'[id].lastHeartbeat == now)
    ensures Sound(nodes', now)
  {
    forall a, b | a in nodes' && b in nodes' && a != b
      ensures nodes'[a].descriptor.address != nodes'[b].descriptor.address
    {
      assert nodes[a].descriptor.address != nodes[b].descriptor.address;
    }
  }

  lemma {:induction false} AfterIsSound(nodes: Nodes, op: Op, was: nat, now: nat)
    requires Sound(nodes, was) && was <= now
    ensures Sound(After(nodes, op, now), now)
  {
    hide Sound, Registered;
    if op.Register? {
      RegisteredIsSound(nodes, op.descriptor, was, now);
    } else {
      FewerIsSound(nodes, After(nodes, op, now), was, now);
    }
  }

  /** A run of operations, each at its own instant. */
  function History(nodes: Nodes, ops: seq<(Op, nat)>): Nodes
    decreases |ops|
  {
    if ops == [] then nodes
    else After(History(nodes, ops[..|ops| - 1]), ops[|ops| - 1].0, ops[|ops| - 1].1)
  }

  predicate InOrder(ops: seq<(Op, nat)>) {
    forall i, j {:trigger ops[i], ops[j]} :: 0 <= i < j < |ops| ==> ops[i].1 <= ops[j].1
  }

  /** Every registry that ever was is sound. */
  lemma {:induction false} HistoryIsSound(ops: seq<(Op, nat)>)
    requires InOrder(ops)
    ensures Sound(History(map[], ops), if ops == [] then 0 else ops[|ops| - 1].1)
    decreases |ops|
  {
    if ops != [] {
      var init := ops[..|ops| - 1];
      HistoryIsSound(init);
      var was := if init == [] then 0 else init[|init| - 1].1;
      assert was <= ops[|ops| - 1].1;
      AfterIsSound(History(map[], init), ops[|ops| - 1].0, was, ops[|ops| - 1].1);
    }
  }

  /** Registering changes this node and drops whoever had its address, and nothing else; a known node
      keeps its first registration and its metrics. */
  lemma {:induction false} RegisteredExactly(nodes: Nodes, d: Descriptor, now: nat, id: string)
    ensures var nodes' := Registered(nodes, d, now);
            && (id != d.nodeId ==>
                  && (id in nodes' <==> id in nodes && nodes[id].descriptor.address != d.address)
                  && (id in nodes' ==> nodes'[id] == nodes[id]))
            && d.nodeId in nodes' && nodes'[d.nodeId].descriptor == d && nodes'[d.nodeId].lastHeartbeat == now
            && nodes'[d.nodeId].registeredAt == (if d.nodeId in nodes then nodes[d.nodeId].registeredAt else now)
            && nodes'[d.nodeId].metrics == (if d.nodeId in nodes then nodes[d.nodeId].metrics else None)
  {
  }

  /** A heartbeat of a known node sets its time, and its metrics if it brings any, and changes nothing else. */
  lemma {:induction false} HeartbeatExactly(nodes: Nodes, node: string, metrics: Option<nat>, now: nat, id: string)
    ensures var nodes' := After(nodes, Heartbeat(node, metrics), now);
            && (id in nodes' <==> id in nodes)
            && (id in nodes ==>
                  && nodes'[id].descriptor == nodes[id].descriptor
                  && nodes'[id].registeredAt == nodes[id].registeredAt
                  && (id != node ==> nodes'[id] == nodes[id])
                  && (id == node ==>
                        && nodes'[id].lastHeartbeat == now
                        && nodes'[id].metrics == (if metrics.Some? then metrics else nodes[id].metrics)))
  {
  }

  /** Removing a node takes out that node, if it is there, and no other; nothing else changes. */
  lemma {:induction false} RemoveExactly(nodes: Nodes, node: string, now: nat, id: string)
    ensures var nodes' := After(nodes, Remove(node), now);
            && (id in nodes' <==> id in nodes && id != node)
            && (id in nodes' ==> nodes'[id] == nodes[id])
            && |nodes'| + (if node in nodes then 1 else 0) == |nodes|
  {
    var nodes' := After(nodes, Remove(node), now);
    assert nodes'.Keys == nodes.Keys - {node};
    assert |nodes'.Keys| == |nodes'| && |nodes.Keys| == |nodes|;
  }

  /** Cleaning up removes the stale entries and no others, and they are as many as it says. */
  lemma {:induction false} CleanupExactly(nodes: Nodes, now: nat, timeout: nat)
    ensures Unstale(nodes, now, timeout).Keys == nodes.Keys - set id | id in nodes && Stale(nodes[id], now, timeout)
    ensures |nodes| - |Unstale(nodes, now, timeout)| == |set id | id in nodes && Stale(nodes[id], now, timeout)|
  {
    var stale := set id | id in nodes && Stale(nodes[id], now, timeout);
    var kept := Unstale(nodes, now, timeout);
    assert nodes.Keys == kept.Keys + stale && kept.Keys !! stale;
    assert |kept.Keys| == |kept| && |nodes.Keys| == |nodes|;
  }

  /** A node survives a cleaning exactly as long after its last sign of life as the timeout allows. */
  lemma {:induction false} SignOfLifeLasts(nodes: Nodes, op: Op, id: string, seen: nat, later: nat, timeout: nat)
    requires seen <= later
    requires (op.Heartbeat? && op.nodeId == id && id in nodes) || (op.Register? && op.descriptor.nodeId == id)
    ensures id in After(After(nodes, op, seen), Cleanup(timeout), later) <==> later - seen <= timeout
  {
  }

  /* The weighted draw. */

  function Sum(nodes: seq<Descriptor>): nat {
    if nodes == [] then 0 else Sum(nodes[..|nodes| - 1]) + nodes[|nodes| - 1].bandwidth
  }

  /** `sum::<u64>()` in a release build. */
  function Total(nodes: seq<Descriptor>): uint64 {
    Sum(nodes) % 0x1_0000_0000_0000_0000
  }

  /** How many values the generator is asked to choose from. */
  function Choices(nodes: seq<Descriptor>): nat {
    if Total(nodes) == 0 then |nodes| else Total(nodes)
  }

  lemma {:induction false} SumMonotone(nodes: seq<Descriptor>, i: nat, j: nat)
    requires i <= j <= |nodes|
    ensures Sum(nodes[..i]) <= Sum(nodes[..j])
    decreases j
  {
    if i < j {
      assert nodes[..j][..j - 1] == nodes[..j - 1];
      SumMonotone(nodes, i, j - 1);
    }
  }

  lemma {:induction false} SumStep(nodes: seq<Descriptor>, i: nat)
    requires i < |nodes|
    ensures Sum(nodes[..i + 1]) == Sum(nodes[..i]) + nodes[i].bandwidth
  {
    assert nodes[..i + 1][..i] == nodes[..i];
  }

  lemma {:induction false} TotalBelowSum(nodes: seq<Descriptor>)
    ensures Total(nodes) <= Sum(nodes)
    ensures Sum(nodes) < 0x1_0000_0000_0000_0000 <==> Total(nodes) == Sum(nodes)
  {
  }

  /** The draw lies in the stretch of the running total that belongs to node `i`. */
  predicate Hits(nodes: seq<Descriptor>, draw: nat, i: nat) {
    i < |nodes| && Sum(nodes[..i]) <= draw < Sum(nodes[..i + 1])
  }

  lemma {:induction false} HitsOne(nodes: seq<Descriptor>, draw: nat, i: nat, j: nat)
    requires Hits(nodes, draw, i) && Hits(nodes, draw, j)
    ensures i == j
  {
    if i < j {
      SumMonotone(nodes, i + 1, j);
    } else if j < i {
      SumMonotone(nodes, j + 1, i);
    }
  }

  /** The node a draw selects. */
  function Drawn(nodes: seq<Descriptor>, draw: nat): (i: nat)
    requires draw < Sum(nodes)
    ensures Hits(nodes, draw, i)
  {
    var last := |nodes| - 1;
    assert nodes[..last + 1] == nodes;
    if draw >= Sum(nodes[..last]) then last
    else
      var i := Drawn(nodes[..last], draw);
      assert nodes[..last][..i] == nodes[..i] && nodes[..last][..i + 1] == nodes[..i + 1];
      i
  }

  /** The index selected by a draw out of `Choices`. */
  function Selected(nodes: seq<Descriptor>, draw: nat): (i: nat)
    requires draw < Choices(nodes)
    ensures i < |nodes|
    ensures if Total(nodes) == 0 then i == draw else Hits(nodes, draw, i)
  {
    TotalBelowSum(nodes);
    if Total(nodes) == 0 then draw else Drawn(nodes, draw)
  }

  datatype RegistryError =
    | HopCountTooLow(count: nat)
    | NoEntries | NoMiddles | TooFewMiddles(need: nat, have: nat) | NoExits | EmptyList
    | SharedIp | SharedOperator
    | NoMiddleLeft(picked: seq<Descriptor>, need: nat, remain: nat)  // `picked`: exit, entry, then middles

  method SumBandwidth(nodes: seq<Descriptor>) returns (total: uint64)
    ensures total == Total(nodes)
  {
    total := 0;
    var i := 0;
    while i < |nodes|
      invariant i <= |nodes| && total == Total(nodes[..i])
    {
      SumStep(nodes, i);
      total := (total + nodes[i].bandwidth) % 0x1_0000_0000_0000_0000;
      i := i + 1;
    }
    assert nodes[..|nodes|] == nodes;
  }

  /** With bandwidth to go by, the node whose stretch the draw hits; without, the draw itself. The
      subtraction never goes below zero, and the loop never runs out. */
  method SelectWeightedIndex(nodes: seq<Descriptor>, draw: nat) returns (r: Result<nat, RegistryError>)
    requires nodes != [] ==> draw < Choices(nodes)
    ensures nodes == [] ==> r == Err(EmptyList)
    ensures nodes != [] ==>
              r.Ok? && r.value < |nodes|
              && (if Total(nodes) == 0 then r.value == draw else Hits(nodes, draw, r.value))
    ensures nodes != [] ==> r.value == Selected(nodes, draw)
  {
    if nodes == [] {
      return Err(EmptyList);
    }
    var total := SumBandwidth(nodes);
    if total == 0 {
      return Ok(draw);
    }
    var weight := draw;
    var i := 0;
    while i < |nodes|
      invariant i <= |nodes| && weight >= 0 && Sum(nodes[..i]) + weight == draw
    {
      SumStep(nodes, i);
      if weight < nodes[i].bandwidth {
        HitsOne(nodes, draw, i, Selected(nodes, draw));
        return Ok(i);
      }
      weight := weight - nodes[i].bandwidth;
      i := i + 1;
    }
    assert nodes[..|nodes|] == nodes;
    TotalBelowSum(nodes);
    assert false; // so the final fallback to the last node is never reached
  }

  /** The draws that select node `i`. */
  ghost function DrawsFor(nodes: seq<Descriptor>, i: nat): set<nat> {
    set draw: nat | 0 <= draw < Total(nodes) && Hits(nodes, draw, i)
  }

  lemma {:induction false} IntervalSize(s: set<nat>, lo: nat, hi: nat)
    requires lo <= hi && forall d: nat :: d in s <==> lo <= d < hi
    ensures |s| == hi - lo
    decreases hi - lo
  {
    if lo == hi {
      assert s == {};
    } else {
      IntervalSize(s - {lo}, lo + 1, hi);
    }
  }

  /** The draw is exactly proportional, node by node, if and only if the total does not overflow. */
  lemma {:induction false} DrawIsProportional(nodes: seq<Descriptor>)
    requires Total(nodes) > 0
    ensures Sum(nodes) < 0x1_0000_0000_0000_0000 <==>
            forall i {:trigger DrawsFor(nodes, i)} :: 0 <= i < |nodes| ==> |DrawsFor(nodes, i)| == nodes[i].bandwidth
  {
    TotalBelowSum(nodes);
    if Sum(nodes) < 0x1_0000_0000_0000_0000 {
      forall i | 0 <= i < |nodes| ensures |DrawsFor(nodes, i)| == nodes[i].bandwidth {
        SumStep(nodes, i);
        SumMonotone(nodes, i + 1, |nodes|);
        assert nodes[..|nodes|] == nodes;
        IntervalSize(DrawsFor(nodes, i), Sum(nodes[..i]), Sum(nodes[..i + 1]));
      }
    } else {
      var i := Drawn(nodes, Total(nodes));
      SumStep(nodes, i);
      IntervalSize(DrawsFor(nodes, i), Sum(nodes[..i]), Total(nodes));
      assert |DrawsFor(nodes, i)| < nodes[i].bandwidth;
    }
  }

  /** A node without bandwidth is never drawn while any other has some. */
  lemma {:induction false} ZeroIsNeverDrawn(nodes: seq<Descriptor>, i: nat)
    requires i < |nodes| && nodes[i].bandwidth == 0
    ensures DrawsFor(nodes, i) == {}
  {
    SumStep(nodes, i);
  }
}
