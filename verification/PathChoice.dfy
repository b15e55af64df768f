/** Choosing a path from the registry: exit, entry, then middles under growing exclusions. */
module PathChoice {
  import opened Common
  import opened Registry

  predicate SameIp(a: Descriptor, b: Descriptor, allowSameIp: bool) {
    !allowSameIp && !Loopback(a.address.ip) && a.address.ip == b.address.ip
  }

  predicate SameOperator(a: Descriptor, b: Descriptor) {
    a.operator.Some? && a.operator == b.operator
  }

  predicate Compatible(a: Descriptor, b: Descriptor, allowSameIp: bool) {
    !SameIp(a, b, allowSameIp) && !SameOperator(a, b)
  }

  predicate CompatibleWithAll(n: Descriptor, path: seq<Descriptor>, allowSameIp: bool) {
    forall p :: p in path ==> Compatible(n, p, allowSameIp)
  }

  predicate DistinctIds(nodes: seq<Descriptor>) {
    forall i, j {:trigger nodes[i], nodes[j]} :: 0 <= i < j < |nodes| ==> nodes[i].nodeId != nodes[j].nodeId
  }

  predicate AllCompatible(nodes: seq<Descriptor>, allowSameIp: bool) {
    forall i, j {:trigger nodes[i], nodes[j]} :: 0 <= i < j < |nodes| ==> Compatible(nodes[i], nodes[j], allowSameIp)
  }

  /** The IPs and operators that are taken: loopback IPs never, and no IP at all if sharing is allowed. */
  function TakenIps(picked: seq<Descriptor>, allowSameIp: bool): set<seq<byte>> {
    if allowSameIp then {} else set n | n in picked && !Loopback(n.address.ip) :: n.address.ip
  }

  function TakenOperators(picked: seq<Descriptor>): set<string> {
    set n | n in picked && n.operator.Some? :: n.operator.value
  }

  predicate Allowed(n: Descriptor, ips: set<seq<byte>>, operators: set<string>, allowSameIp: bool) {
    && (allowSameIp || Loopback(n.address.ip) || n.address.ip !in ips)
    && (n.operator.Some? ==> n.operator.value !in operators)
  }

  lemma {:induction false} AllowedIsCompatible(n: Descriptor, picked: seq<Descriptor>, allowSameIp: bool)
    ensures Allowed(n, TakenIps(picked, allowSameIp), TakenOperators(picked), allowSameIp)
            <==> CompatibleWithAll(n, picked, allowSameIp)
  {
  }

  /** `Vec::retain`. */
  function Retain(nodes: seq<Descriptor>, ips: set<seq<byte>>, operators: set<string>,
      allowSameIp: bool): (r: seq<Descriptor>)
    ensures |r| <= |nodes|
    ensures forall n :: n in r <==> n in nodes && Allowed(n, ips, operators, allowSameIp)
    ensures (forall n :: n in nodes ==> Allowed(n, ips, operators, allowSameIp)) ==> r == nodes
  {
    if nodes == [] then []
    else
      var rest := Retain(nodes[1..], ips, operators, allowSameIp);
      assert nodes == [nodes[0]] + nodes[1..];
      if Allowed(nodes[0], ips, operators, allowSameIp) then [nodes[0]] + rest else rest
  }

  lemma {:induction false} RetainDistinct(nodes: seq<Descriptor>, ips: set<seq<byte>>, operators: set<string>,
      allowSameIp: bool)
    requires DistinctIds(nodes)
    ensures DistinctIds(Retain(nodes, ips, operators, allowSameIp))
  {
    if nodes != [] {
      RetainDistinct(nodes[1..], ips, operators, allowSameIp);
      var rest := Retain(nodes[1..], ips, operators, allowSameIp);
      forall j | 0 <= j < |rest| ensures rest[j].nodeId != nodes[0].nodeId {
        assert rest[j] in nodes[1..];
      }
    }
  }

  /** `Vec::remove`. */
  function Without(nodes: seq<Descriptor>, i: nat): (r: seq<Descriptor>)
    requires i < |nodes|
    ensures |r| == |nodes| - 1
    ensures forall n :: n in r ==> n in nodes
    ensures DistinctIds(nodes) ==> DistinctIds(r) && forall n :: n in r <==> n in nodes && n != nodes[i]
  {
    var r := nodes[..i] + nodes[i + 1..];
    assert nodes == nodes[..i] + [nodes[i]] + nodes[i + 1..];
    r
  }

  /** What a path must be: `picked` lists exit, entry and middles in the order they were chosen. */
  ghost predicate Legal(picked: seq<Descriptor>, allowSameIp: bool) {
    DistinctIds(picked) && AllCompatible(picked, allowSameIp)
  }

  /** The registry offers this node in this role. */
  ghost predicate Offers(nodes: Nodes, d: Descriptor, t: NodeType) {
    d.nodeId in nodes && nodes[d.nodeId].descriptor == d && d.nodeType == t
  }

  /** `more` registered middles that complete a partial path. */
  ghost predicate Completes(picked: seq<Descriptor>, more: seq<Descriptor>, nodes: Nodes, allowSameIp: bool) {
    Legal(picked + more, allowSameIp) && forall n :: n in more ==> Offers(nodes, n, Middle)
  }

  /** What is left to choose from: exactly the middles that are neither picked nor in conflict. */
  ghost predicate Candidates(available: seq<Descriptor>, nodes: Nodes, picked: seq<Descriptor>, allowSameIp: bool) {
    && DistinctIds(available)
    && forall n :: n in available <==>
                     Offers(nodes, n, Middle) && n !in picked && CompatibleWithAll(n, picked, allowSameIp)
  }

  /** Distinct nodes of one list are no more than the list has. */
  lemma {:induction false} Pigeonhole(some: seq<Descriptor>, all: seq<Descriptor>)
    requires DistinctIds(some) && forall n :: n in some ==> n in all
    ensures |some| <= |all|
    decreases |some|
  {
    if some != [] {
      var last := |some| - 1;
      var n := some[last];
      assert n in some && n in all;
      var i :| 0 <= i < |all| && all[i] == n;
      var rest := all[..i] + all[i + 1..];
      forall m | m in some[..last] ensures m in rest {
        var k :| 0 <= k < last && some[..last][k] == m;
        assert some[k].nodeId != some[last].nodeId;
        assert m in all && m != n;
        assert all == all[..i] + [all[i]] + all[i + 1..];
      }
      Pigeonhole(some[..last], rest);
    }
  }

  /** If fewer candidates are left than slots, no choice of middles completes the path. */
  lemma {:induction false} NoCompletion(available: seq<Descriptor>, nodes: Nodes, picked: seq<Descriptor>,
                                        more: seq<Descriptor>, allowSameIp: bool)
    requires Candidates(available, nodes, picked, allowSameIp) && |available| < |more|
    ensures !Completes(picked, more, nodes, allowSameIp)
  {
    if Completes(picked, more, nodes, allowSameIp) {
      var whole := picked + more;
      forall n | n in more ensures n in available {
        var k :| 0 <= k < |more| && more[k] == n;
        assert whole[|picked| + k] == n;
        forall p | p in picked ensures Compatible(n, p, allowSameIp) && p.nodeId != n.nodeId {
          var j :| 0 <= j < |picked| && picked[j] == p;
          assert whole[j] == p;
          assert Compatible(whole[j], whole[|picked| + k], allowSameIp);
        }
      }
      forall i, j | 0 <= i < j < |more| ensures more[i].nodeId != more[j].nodeId {
        assert whole[|picked| + i].nodeId != whole[|picked| + j].nodeId;
      }
      Pigeonhole(more, available);
    }
  }

  /** One more compatible node. */
  lemma {:induction false} LegalGrows(picked: seq<Descriptor>, n: Descriptor, allowSameIp: bool)
    requires Legal(picked, allowSameIp) && CompatibleWithAll(n, picked, allowSameIp)
    requires forall p :: p in picked ==> p.nodeId != n.nodeId
    ensures Legal(picked + [n], allowSameIp)
  {
    forall i, j | 0 <= i < j < |picked + [n]|
      ensures Compatible((picked + [n])[i], (picked + [n])[j], allowSameIp)
      ensures (picked + [n])[i].nodeId != (picked + [n])[j].nodeId
    {
      if j == |picked| {
        assert picked[i] in picked;
      }
    }
  }

  /** Every node under its own id. */
  ghost predicate OwnKeys(nodes: Nodes) {
    forall id {:trigger nodes[id]} :: id in nodes ==> nodes[id].descriptor.nodeId == id
  }

  ghost function OfType(nodes: Nodes, t: NodeType): set<string> {
    set id | id in nodes && nodes[id].descriptor.nodeType == t
  }

  /** No two registered nodes are in conflict. */
  ghost predicate NoConflicts(nodes: Nodes, allowSameIp: bool) {
    forall a, b {:trigger nodes[a], nodes[b]} :: a in nodes && b in nodes && a != b ==>
      Compatible(nodes[a].descriptor, nodes[b].descriptor, allowSameIp)
  }

  /** A partial path: an exit, an entry and some middles, all registered, all compatible. */
  ghost predicate Partial(nodes: Nodes, picked: seq<Descriptor>, allowSameIp: bool) {
    && |picked| >= 2 && Legal(picked, allowSameIp)
    && Offers(nodes, picked[0], Exit) && Offers(nodes, picked[1], Entry)
    && forall i {:trigger picked[i]} :: 2 <= i < |picked| ==> Offers(nodes, picked[i], Middle)
  }

  /** What a client may rely on in a path. */
  ghost predicate GoodPath(nodes: Nodes, path: seq<Descriptor>, allowSameIp: bool) {
    && |path| >= 3 && DistinctIds(path) && AllCompatible(path, allowSameIp)
    && Offers(nodes, path[0], Entry) && Offers(nodes, path[|path| - 1], Exit)
    && forall i {:trigger path[i]} :: 1 <= i < |path| - 1 ==> Offers(nodes, path[i], Middle)
  }

  /** No two hops of a path listen on the same socket, even where hops may share an IP. */
  lemma {:induction false} PathAddressesDiffer(nodes: Nodes, now: nat, path: seq<Descriptor>, allowSameIp: bool,
      i: nat, j: nat)
    requires Sound(nodes, now) && GoodPath(nodes, path, allowSameIp) && i < j < |path|
    ensures path[i].address != path[j].address
  {
    assert path[i].nodeId != path[j].nodeId;
    assert nodes[path[i].nodeId].descriptor == path[i] && nodes[path[j].nodeId].descriptor == path[j];
  }

  /** The path in order: entry, middles, exit. */
  lemma {:induction false} PathOfPicked(nodes: Nodes, picked: seq<Descriptor>, allowSameIp: bool)
    requires Partial(nodes, picked, allowSameIp) && |picked| >= 3
    ensures GoodPath(nodes, picked[1..] + [picked[0]], allowSameIp)
  {
    var path := picked[1..] + [picked[0]];
    forall i, j | 0 <= i < j < |path|
      ensures path[i].nodeId != path[j].nodeId && Compatible(path[i], path[j], allowSameIp)
    {
      if j == |picked| - 1 {
        assert Compatible(picked[0], picked[i + 1], allowSameIp) && picked[0].nodeId != picked[i + 1].nodeId;
      } else {
        assert Compatible(picked[i + 1], picked[j + 1], allowSameIp) && picked[i + 1].nodeId != picked[j + 1].nodeId;
      }
    }
  }

  lemma {:induction false} PartialGrows(nodes: Nodes, picked: seq<Descriptor>, n: Descriptor, allowSameIp: bool)
    requires Partial(nodes, picked, allowSameIp) && Offers(nodes, n, Middle)
    requires n !in picked && CompatibleWithAll(n, picked, allowSameIp)
    ensures Partial(nodes, picked + [n], allowSameIp)
  {
    forall p | p in picked ensures p.nodeId != n.nodeId {
      var i :| 0 <= i < |picked| && picked[i] == p;
    }
    LegalGrows(picked, n, allowSameIp);
  }

  /** Between slots: no candidate has been lost, and without conflicts no other middle either. */
  ghost predicate Pool(available: seq<Descriptor>, nodes: Nodes, picked: seq<Descriptor>, allowSameIp: bool,
      size: nat) {
    && DistinctIds(available)
    && (forall n :: n in available ==> Offers(nodes, n, Middle) && n !in picked)
    && (forall n ::
          Offers(nodes, n, Middle) && n !in picked && CompatibleWithAll(n, picked, allowSameIp) ==> n in available)
    && (NoConflicts(nodes, allowSameIp) ==> |available| == size)
  }

  lemma {:induction false} RetainLeavesCandidates(available: seq<Descriptor>, nodes: Nodes,
      picked: seq<Descriptor>, allowSameIp: bool, size: nat)
    requires Partial(nodes, picked, allowSameIp) && Pool(available, nodes, picked, allowSameIp, size)
    ensures var left := Retain(available, TakenIps(picked, allowSameIp), TakenOperators(picked), allowSameIp);
            Candidates(left, nodes, picked, allowSameIp) && (NoConflicts(nodes, allowSameIp) ==> |left| == size)
  {
    var ips, operators := TakenIps(picked, allowSameIp), TakenOperators(picked);
    RetainDistinct(available, ips, operators, allowSameIp);
    forall n ensures Allowed(n, ips, operators, allowSameIp) <==> CompatibleWithAll(n, picked, allowSameIp) {
      AllowedIsCompatible(n, picked, allowSameIp);
    }
    if NoConflicts(nodes, allowSameIp) {
      forall n | n in available ensures CompatibleWithAll(n, picked, allowSameIp) {
        forall p | p in picked ensures Compatible(n, p, allowSameIp) {
          var i :| 0 <= i < |picked| && picked[i] == p;
          assert Compatible(nodes[n.nodeId].descriptor, nodes[p.nodeId].descriptor, allowSameIp);
        }
      }
    }
  }

  lemma {:induction false} TakingLeavesPool(left: seq<Descriptor>, i: nat, nodes: Nodes, picked: seq<Descriptor>,
      allowSameIp: bool, size: nat)
    requires Candidates(left, nodes, picked, allowSameIp)
        && (NoConflicts(nodes, allowSameIp) ==> |left| == size) && i < |left|
    ensures Pool(Without(left, i), nodes, picked + [left[i]], allowSameIp, if size > 0 then size - 1 else 0)
  {
    assert left[i] in left;
    forall n | CompatibleWithAll(n, picked + [left[i]], allowSameIp) ensures CompatibleWithAll(n, picked, allowSameIp) {
    }
  }

  lemma {:induction false} TakeOne(left: seq<Descriptor>, i: nat, nodes: Nodes, picked: seq<Descriptor>,
      allowSameIp: bool, size: nat)
    requires Partial(nodes, picked, allowSameIp) && Candidates(left, nodes, picked, allowSameIp) && i < |left|
    requires NoConflicts(nodes, allowSameIp) ==> |left| == size
    ensures Partial(nodes, picked + [left[i]], allowSameIp)
    ensures Pool(Without(left, i), nodes, picked + [left[i]], allowSameIp, if size > 0 then size - 1 else 0)
  {
    hide Partial, Pool, NoConflicts, CompatibleWithAll;
    assert left[i] in left;
    PartialGrows(nodes, picked, left[i], allowSameIp);
    TakingLeavesPool(left, i, nodes, picked, allowSameIp, size);
  }

  /** At the start every middle can be had: none is an exit or an entry. */
  lemma {:induction false} WholePool(nodes: Nodes, exit: Descriptor, entry: Descriptor, middles: seq<Descriptor>,
      allowSameIp: bool)
    requires Partial(nodes, [exit, entry], allowSameIp)
    requires DistinctIds(middles) && forall n :: n in middles <==> Offers(nodes, n, Middle)
    ensures Pool(middles, nodes, [exit, entry], allowSameIp, |middles|)
  {
    var picked := [exit, entry];
    assert picked[0] == exit && picked[1] == entry;
  }

  /** The exclusion sets grow by the node just picked. */
  lemma {:induction false} TakenGrows(picked: seq<Descriptor>, n: Descriptor, allowSameIp: bool)
    ensures TakenIps(picked + [n], allowSameIp)
            == TakenIps(picked, allowSameIp) + (if !allowSameIp && !Loopback(n.address.ip) then {n.address.ip} else {})
    ensures TakenOperators(picked + [n])
        == TakenOperators(picked) + (if n.operator.Some? then {n.operator.value} else {})
  {
  }

  /** The nodes of one type among the ids seen so far. */
  ghost predicate Found(nodes: Nodes, seen: set<string>, t: NodeType, found: seq<Descriptor>) {
    && DistinctIds(found) && |found| == |OfType(nodes, t) * seen|
    && forall d :: d in found <==> Offers(nodes, d, t) && d.nodeId in seen
  }

  lemma {:induction false} OneMore(nodes: Nodes, seen: set<string>, id: string, t: NodeType)
    requires id in nodes && id !in seen
    ensures |OfType(nodes, t) * (seen + {id})|
            == |OfType(nodes, t) * seen| + if nodes[id].descriptor.nodeType == t then 1 else 0
  {
    var all := OfType(nodes, t);
    if id in all {
      assert all * (seen + {id}) == all * seen + {id};
    } else {
      assert all * (seen + {id}) == all * seen;
    }
  }

  lemma {:induction false} DistinctSnoc(found: seq<Descriptor>, d: Descriptor)
    requires DistinctIds(found) && forall n :: n in found ==> n.nodeId != d.nodeId
    ensures DistinctIds(found + [d])
  {
    forall i | 0 <= i < |found| ensures found[i].nodeId != d.nodeId {
      assert found[i] in found;
    }
  }

  lemma {:induction false} FoundNext(nodes: Nodes, seen: set<string>, id: string, t: NodeType, found: seq<Descriptor>)
    requires OwnKeys(nodes) && id in nodes && id !in seen && Found(nodes, seen, t, found)
    ensures Found(nodes, seen + {id}, t,
                  if nodes[id].descriptor.nodeType == t then found + [nodes[id].descriptor] else found)
  {
    hide OfType, DistinctIds;
    OneMore(nodes, seen, id, t);
    var d := nodes[id].descriptor;
    if d.nodeType == t {
      DistinctSnoc(found, d);
      forall n ensures n in found + [d] <==> Offers(nodes, n, t) && n.nodeId in seen + {id} {
        assert n in found + [d] <==> n in found || n == d;
      }
    }
  }

  lemma {:induction false} FoundAll(nodes: Nodes, t: NodeType, found: seq<Descriptor>)
    requires Found(nodes, nodes.Keys, t, found)
    ensures DistinctIds(found) && |found| == |OfType(nodes, t)|
    ensures forall d :: d in found <==> Offers(nodes, d, t)
  {
    assert OfType(nodes, t) * nodes.Keys == OfType(nodes, t);
  }

  lemma {:induction false} FoundNone(nodes: Nodes, t: NodeType)
    ensures Found(nodes, {}, t, [])
  {
    assert OfType(nodes, t) * {} == {};
  }

  ghost predicate Enough(nodes: Nodes, count: nat) {
    && count >= 3 && |OfType(nodes, Entry)| >= 1 && |OfType(nodes, Middle)| >= count - 2 && |OfType(nodes, Exit)| >= 1
  }

  lemma {:induction false} EndsAreCompatible(nodes: Nodes, exit: Descriptor, entry: Descriptor, allowSameIp: bool)
    requires Offers(nodes, exit, Exit) && Offers(nodes, entry, Entry)
    ensures NoConflicts(nodes, allowSameIp) ==> Compatible(exit, entry, allowSameIp)
  {
    assert nodes[exit.nodeId].descriptor == exit && nodes[entry.nodeId].descriptor == entry;
  }

  lemma {:induction false} PairIsPartial(nodes: Nodes, exit: Descriptor, entry: Descriptor, allowSameIp: bool)
    requires Offers(nodes, exit, Exit) && Offers(nodes, entry, Entry) && Compatible(exit, entry, allowSameIp)
    ensures Partial(nodes, [exit, entry], allowSameIp)
  {
  }

  /* What the draws make of it. */

  /** The generator's raw number comes down to one of the `Choices`. */
  function Pick(from: seq<Descriptor>, draw: nat): (i: nat)
    requires from != []
    ensures i < |from|
  {
    assert 0 < Choices(from);
    Selected(from, draw % Choices(from))
  }

  function ChooseEnds(exits: seq<Descriptor>, entries: seq<Descriptor>, allowSameIp: bool, d: nat, d': nat)
    : Result<(Descriptor, Descriptor), RegistryError>
    requires exits != [] && entries != []
  {
    var exit, entry := exits[Pick(exits, d)], entries[Pick(entries, d')];
    if SameIp(entry, exit, allowSameIp) then Err(SharedIp)
    else if SameOperator(entry, exit) then Err(SharedOperator)
    else Ok((exit, entry))
  }

  /** One middle per draw. */
  function ChooseMiddles(available: seq<Descriptor>, picked: seq<Descriptor>, allowSameIp: bool, draws: seq<nat>)
    : (r: Result<seq<Descriptor>, RegistryError>)
    ensures r.Ok? ==> |r.value| == |picked| + |draws|
    decreases |draws|
  {
    if draws == [] then Ok(picked)
    else
      var left := Retain(available, TakenIps(picked, allowSameIp), TakenOperators(picked), allowSameIp);
      if |left| < |draws| then Err(NoMiddleLeft(picked, |draws|, |left|))
      else
        var i := Pick(left, draws[0]);
        ChooseMiddles(Without(left, i), picked + [left[i]], allowSameIp, draws[1..])
  }

  /** A path with one hop per draw, from the nodes as listed. */
  function ChoosePath(exits: seq<Descriptor>, entries: seq<Descriptor>, middles: seq<Descriptor>, allowSameIp: bool,
      draws: seq<nat>): Result<seq<Descriptor>, RegistryError>
  {
    if |draws| < 3 then Err(HopCountTooLow(|draws|))
    else if entries == [] then Err(NoEntries)
    else if middles == [] then Err(NoMiddles)
    else if |middles| < |draws| - 2 then Err(TooFewMiddles(|draws| - 2, |middles|))
    else if exits == [] then Err(NoExits)
    else
      match ChooseEnds(exits, entries, allowSameIp, draws[0], draws[1])
      case Err(e) => Err(e)
      case Ok((exit, entry)) =>
        match ChooseMiddles(middles, [exit, entry], allowSameIp, draws[2..])
        case Err(e) => Err(e)
        case Ok(picked) => Ok(picked[1..] + [picked[0]])
  }

  /** All registered nodes of a type, each once, in any order. */
  ghost predicate Lists(nodes: Nodes, t: NodeType, found: seq<Descriptor>) {
    DistinctIds(found) && forall d :: d in found <==> Offers(nodes, d, t)
  }

  /** An exit and an entry for which the error tells the truth. */
  ghost predicate BadEnds(nodes: Nodes, allowSameIp: bool, error: RegistryError) {
    exists a, b {:trigger Offers(nodes, a, Exit), Offers(nodes, b, Entry)} ::
      && Offers(nodes, a, Exit) && Offers(nodes, b, Entry)
      && (error == SharedIp ==> SameIp(b, a, allowSameIp)) && (error == SharedOperator ==> SameOperator(b, a))
  }

  lemma {:induction false} EndsAreRight(nodes: Nodes, exits: seq<Descriptor>, entries: seq<Descriptor>,
      allowSameIp: bool, d: nat, d': nat)
    requires exits != [] && entries != [] && Lists(nodes, Exit, exits) && Lists(nodes, Entry, entries)
    ensures var r := ChooseEnds(exits, entries, allowSameIp, d, d');
            && (r.Ok? ==> Partial(nodes, [r.value.0, r.value.1], allowSameIp))
            && (r.Err? ==> (r.error == SharedIp || r.error == SharedOperator) && BadEnds(nodes, allowSameIp, r.error))
            && (NoConflicts(nodes, allowSameIp) ==> r.Ok?)
  {
    hide NoConflicts, Partial;
    var exit, entry := exits[Pick(exits, d)], entries[Pick(entries, d')];
    assert exit in exits && entry in entries;
    assert Offers(nodes, exit, Exit) && Offers(nodes, entry, Entry);
    EndsAreCompatible(nodes, exit, entry, allowSameIp);
    if Compatible(exit, entry, allowSameIp) {
      PairIsPartial(nodes, exit, entry, allowSameIp);
    }
  }

  /** Whatever is drawn: the middles are legal, or the partial path has no legal completion. */
  lemma {:induction false} MiddlesAreRight(available: seq<Descriptor>, nodes: Nodes, picked: seq<Descriptor>,
      allowSameIp: bool, size: nat, draws: seq<nat>)
    requires Partial(nodes, picked, allowSameIp) && Pool(available, nodes, picked, allowSameIp, size)
    ensures match ChooseMiddles(available, picked, allowSameIp, draws)
            case Ok(all) => Partial(nodes, all, allowSameIp) && picked <= all
            case Err(NoMiddleLeft(p, need, remain)) =>
              && Partial(nodes, p, allowSameIp) && |p| + need == |picked| + |draws| && picked <= p && remain < need
              && forall more: seq<Descriptor> :: |more| == need ==> !Completes(p, more, nodes, allowSameIp)
            case _ => false
    ensures NoConflicts(nodes, allowSameIp) && size >= |draws| ==>
              ChooseMiddles(available, picked, allowSameIp, draws).Ok?
    decreases |draws|
  {
    hide Partial, Pool, Candidates, NoConflicts, TakenIps, TakenOperators, Completes, Pick;
    if draws != [] {
      RetainLeavesCandidates(available, nodes, picked, allowSameIp, size);
      var left := Retain(available, TakenIps(picked, allowSameIp), TakenOperators(picked), allowSameIp);
      if |left| < |draws| {
        forall more: seq<Descriptor> | |more| == |draws| ensures !Completes(picked, more, nodes, allowSameIp) {
          NoCompletion(left, nodes, picked, more, allowSameIp);
        }
      } else {
        var i := Pick(left, draws[0]);
        TakeOne(left, i, nodes, picked, allowSameIp, size);
        MiddlesAreRight(Without(left, i), nodes, picked + [left[i]], allowSameIp, if size > 0 then size - 1 else 0,
          draws[1..]);
      }
    }
  }

  /* Which paths can be drawn. */

  /** Every node has bandwidth, and the total does not overflow. */
  ghost predicate Drawable(nodes: seq<Descriptor>) {
    (forall n :: n in nodes ==> n.bandwidth > 0) && Sum(nodes) < 0x1_0000_0000_0000_0000
  }

  lemma {:induction false} SumAppend(a: seq<Descriptor>, b: seq<Descriptor>)
    ensures Sum(a + b) == Sum(a) + Sum(b)
  {
    if b == [] {
      assert a + b == a;
    } else {
      SumAppend(a, b[..|b| - 1]);
      assert (a + b)[..|a + b| - 1] == a + b[..|b| - 1];
    }
  }

  lemma {:induction false} SumOne(n: Descriptor)
    ensures Sum([n]) == n.bandwidth
  {
    assert [n][..0] == [];
  }

  lemma {:induction false} DrawableRetain(nodes: seq<Descriptor>, ips: set<seq<byte>>, operators: set<string>,
      allowSameIp: bool)
    ensures Sum(Retain(nodes, ips, operators, allowSameIp)) <= Sum(nodes)
  {
    hide Sum, Allowed;
    if nodes != [] {
      var rest := Retain(nodes[1..], ips, operators, allowSameIp);
      DrawableRetain(nodes[1..], ips, operators, allowSameIp);
      assert nodes == [nodes[0]] + nodes[1..];
      SumAppend([nodes[0]], nodes[1..]);
      SumAppend([nodes[0]], rest);
      SumOne(nodes[0]);
    }
  }

  lemma {:induction false} DrawableWithout(nodes: seq<Descriptor>, i: nat)
    requires i < |nodes|
    ensures Sum(Without(nodes, i)) <= Sum(nodes)
  {
    var a, b := nodes[..i], nodes[i + 1..];
    assert nodes == a + ([nodes[i]] + b);
    SumAppend(a, [nodes[i]] + b);
    SumAppend([nodes[i]], b);
    SumAppend(a, b);
  }

  lemma {:induction false} SelectedAt(from: seq<Descriptor>, i: nat)
    requires Drawable(from) && i < |from|
    ensures Sum(from[..i]) < Choices(from) && Selected(from, Sum(from[..i])) == i
  {
    hide Sum;
    SumStep(from, i);
    SumMonotone(from, i + 1, |from|);
    assert from[..|from|] == from && from[i] in from;
    TotalBelowSum(from);
    HitsOne(from, Sum(from[..i]), i, Selected(from, Sum(from[..i])));
  }

  lemma {:induction false} AlreadySmall(d: nat, n: nat)
    requires d < n
    ensures d % n == d
  {
  }

  /** Each node of such a list can be drawn. */
  lemma {:induction false} CanBePicked(from: seq<Descriptor>, i: nat)
    requires Drawable(from) && i < |from|
    ensures Pick(from, Sum(from[..i])) == i
  {
    hide Sum, Selected, Choices;
    SelectedAt(from, i);
    AlreadySmall(Sum(from[..i]), Choices(from));
  }

  /** The first of some middles that complete the path is among the candidates, and these are enough. */
  lemma {:induction false} NextIsCandidate(left: seq<Descriptor>, nodes: Nodes, picked: seq<Descriptor>,
      more: seq<Descriptor>, allowSameIp: bool)
    requires Candidates(left, nodes, picked, allowSameIp) && more != []
    requires Partial(nodes, picked, allowSameIp) && Partial(nodes, picked + more, allowSameIp)
    ensures more[0] in left && |more| <= |left|
  {
    var whole, n := picked + more, |picked|;
    assert whole[n] == more[0];
    forall p | p in picked ensures Compatible(more[0], p, allowSameIp) && p != more[0] {
      var j :| 0 <= j < n && picked[j] == p;
      assert whole[j] == p && Compatible(whole[j], whole[n], allowSameIp) && whole[j].nodeId != whole[n].nodeId;
    }
    if |left| < |more| {
      forall m | m in more ensures Offers(nodes, m, Middle) {
        var j :| 0 <= j < |more| && more[j] == m;
        assert whole[n + j] == m;
      }
      NoCompletion(left, nodes, picked, more, allowSameIp);
    }
  }

  lemma {:induction false} MiddlesCanBeDrawn(available: seq<Descriptor>, nodes: Nodes, picked: seq<Descriptor>,
      more: seq<Descriptor>, allowSameIp: bool, size: nat) returns (draws: seq<nat>)
    requires Partial(nodes, picked, allowSameIp) && Pool(available, nodes, picked, allowSameIp, size)
    requires Partial(nodes, picked + more, allowSameIp) && Drawable(available)
    ensures |draws| == |more| && ChooseMiddles(available, picked, allowSameIp, draws) == Ok(picked + more)
    decreases |more|
  {
    hide Partial, Pool, Candidates, NoConflicts, TakenIps, TakenOperators, Pick, Sum;
    if more == [] {
      draws := [];
      assert picked + more == picked;
    } else {
      RetainLeavesCandidates(available, nodes, picked, allowSameIp, size);
      var ips, operators := TakenIps(picked, allowSameIp), TakenOperators(picked);
      var left := Retain(available, ips, operators, allowSameIp);
      DrawableRetain(available, ips, operators, allowSameIp);
      NextIsCandidate(left, nodes, picked, more, allowSameIp);
      var i :| 0 <= i < |left| && left[i] == more[0];
      CanBePicked(left, i);
      TakeOne(left, i, nodes, picked, allowSameIp, size);
      DrawableWithout(left, i);
      assert (picked + [more[0]]) + more[1..] == picked + more;
      var rest := MiddlesCanBeDrawn(Without(left, i), nodes, picked + [left[i]], more[1..], allowSameIp,
        if size > 0 then size - 1 else 0);
      draws := [Sum(left[..i])] + rest;
      assert draws[1..] == rest;
    }
  }

  /** The inverse of `PathOfPicked`. */
  lemma {:induction false} PickedOfPath(nodes: Nodes, path: seq<Descriptor>, allowSameIp: bool)
    requires GoodPath(nodes, path, allowSameIp)
    ensures var last := |path| - 1;
            && Partial(nodes, [path[last], path[0]] + path[1..last], allowSameIp)
            && Partial(nodes, [path[last], path[0]], allowSameIp)
  {
    var last := |path| - 1;
    var picked := [path[last], path[0]] + path[1..last];
    assert forall j :: 1 <= j < |picked| ==> picked[j] == path[j - 1];
    forall i, j | 0 <= i < j < |picked|
      ensures picked[i].nodeId != picked[j].nodeId && Compatible(picked[i], picked[j], allowSameIp)
    {
      if i == 0 {
        assert path[j - 1].nodeId != path[last].nodeId && Compatible(path[j - 1], path[last], allowSameIp);
      } else {
        assert path[i - 1].nodeId != path[j - 1].nodeId && Compatible(path[i - 1], path[j - 1], allowSameIp);
      }
    }
    assert picked[0] == path[last] && picked[1] == path[0];
    PairIsPartial(nodes, picked[0], picked[1], allowSameIp);
  }

  /** What is chosen is a good path. */
  lemma {:induction false} ChosenIsGood(nodes: Nodes, exits: seq<Descriptor>, entries: seq<Descriptor>,
      middles: seq<Descriptor>, allowSameIp: bool, draws: seq<nat>)
    requires Lists(nodes, Exit, exits) && Lists(nodes, Entry, entries) && Lists(nodes, Middle, middles)
    ensures var r := ChoosePath(exits, entries, middles, allowSameIp, draws);
            r.Ok? ==> |r.value| == |draws| && GoodPath(nodes, r.value, allowSameIp)
  {
    hide Partial, Pool, GoodPath, ChooseEnds;
    if ChoosePath(exits, entries, middles, allowSameIp, draws).Ok? {
      EndsAreRight(nodes, exits, entries, allowSameIp, draws[0], draws[1]);
      var (exit, entry) := ChooseEnds(exits, entries, allowSameIp, draws[0], draws[1]).value;
      WholePool(nodes, exit, entry, middles, allowSameIp);
      MiddlesAreRight(middles, nodes, [exit, entry], allowSameIp, |middles|, draws[2..]);
      PathOfPicked(nodes, ChooseMiddles(middles, [exit, entry], allowSameIp, draws[2..]).value, allowSameIp);
    }
  }

  lemma {:induction false} GoodCanBeChosen(nodes: Nodes, exits: seq<Descriptor>, entries: seq<Descriptor>,
      middles: seq<Descriptor>, allowSameIp: bool, path: seq<Descriptor>) returns (draws: seq<nat>)
    requires Lists(nodes, Exit, exits) && Lists(nodes, Entry, entries) && Lists(nodes, Middle, middles)
    requires Drawable(exits) && Drawable(entries) && Drawable(middles) && GoodPath(nodes, path, allowSameIp)
    ensures |draws| == |path| && ChoosePath(exits, entries, middles, allowSameIp, draws) == Ok(path)
  {
    hide Partial, Pool, Drawable, Pick, Sum, ChooseMiddles;
    var last := |path| - 1;
    var exit, entry, more := path[last], path[0], path[1..last];
    assert Offers(nodes, exit, Exit) && Offers(nodes, entry, Entry);
    assert exit in exits && entry in entries;
    var e :| 0 <= e < |exits| && exits[e] == exit;
    var n :| 0 <= n < |entries| && entries[n] == entry;
    CanBePicked(exits, e);
    CanBePicked(entries, n);
    PickedOfPath(nodes, path, allowSameIp);
    WholePool(nodes, exit, entry, middles, allowSameIp);
    var rest := MiddlesCanBeDrawn(middles, nodes, [exit, entry], more, allowSameIp, |middles|);
    MiddlesAreEnough(nodes, middles, path, allowSameIp);
    draws := [Sum(exits[..e]), Sum(entries[..n])] + rest;
    assert draws[2..] == rest;
    assert Compatible(path[0], path[last], allowSameIp);
    var picked := [exit, entry] + more;
    assert path == ([path[0]] + path[1..last]) + [path[last]] && picked[1..] == [entry] + more;
  }

  lemma {:induction false} MiddlesAreEnough(nodes: Nodes, middles: seq<Descriptor>, path: seq<Descriptor>,
      allowSameIp: bool)
    requires Lists(nodes, Middle, middles) && GoodPath(nodes, path, allowSameIp)
    ensures |path| - 2 <= |middles|
  {
    var more := path[1..|path| - 1];
    forall n | n in more ensures n in middles {
      var j :| 0 <= j < |more| && more[j] == n;
      assert path[j + 1] == n;
    }
    forall i, j | 0 <= i < j < |more| ensures more[i].nodeId != more[j].nodeId {
      assert path[i + 1].nodeId != path[j + 1].nodeId;
    }
    Pigeonhole(more, middles);
  }

  /** Where every node has bandwidth and no total overflows, the paths that can come out are exactly the good
      ones, in whatever order the nodes are listed. */
  lemma {:induction false} DrawnPathsAreGoodPaths(nodes: Nodes, exits: seq<Descriptor>, entries: seq<Descriptor>,
      middles: seq<Descriptor>, allowSameIp: bool, path: seq<Descriptor>)
    requires Lists(nodes, Exit, exits) && Lists(nodes, Entry, entries) && Lists(nodes, Middle, middles)
    requires Drawable(exits) && Drawable(entries) && Drawable(middles)
    ensures GoodPath(nodes, path, allowSameIp) <==>
            exists draws {:trigger ChoosePath(exits, entries, middles, allowSameIp, draws)} ::
              |draws| == |path| && ChoosePath(exits, entries, middles, allowSameIp, draws) == Ok(path)
  {
    hide ChoosePath, GoodPath, Drawable, Lists;
    if GoodPath(nodes, path, allowSameIp) {
      var draws := GoodCanBeChosen(nodes, exits, entries, middles, allowSameIp, path);
    } else if draws :| |draws| == |path| && ChoosePath(exits, entries, middles, allowSameIp, draws) == Ok(path) {
      ChosenIsGood(nodes, exits, entries, middles, allowSameIp, draws);
    }
  }

  /* Which nodes come out, draw by draw. */

  /** The weighted draw: the node in whose stretch of the running total the number falls; without bandwidth to
      go by, the number itself. */
  ghost predicate FallsOn(from: seq<Descriptor>, draw: nat, i: nat) {
    && i < |from|
    && if Total(from) == 0 then i == draw % |from|
       else Sum(from[..i]) <= draw % Total(from) < Sum(from[..i + 1])
  }

  /** Every draw picks the one node that it falls on. */
  lemma {:induction false} PickIsWeighted(from: seq<Descriptor>, draw: nat, i: nat)
    requires from != []
    ensures FallsOn(from, draw, i) <==> i == Pick(from, draw)
  {
    if FallsOn(from, draw, i) && Total(from) > 0 {
      HitsOne(from, draw % Total(from), i, Pick(from, draw));
    }
  }

  /** The draws that pick node `i`. */
  ghost function PicksOf(from: seq<Descriptor>, i: nat): set<nat>
    requires from != []
  {
    set draw: nat | 0 <= draw < Total(from) && Pick(from, draw) == i
  }

  /** So exactly `bandwidth` of the draws pick a node, for every node, if and only if the total does not overflow;
      and without bandwidth each draw picks its own. */
  lemma {:induction false} PickIsProportional(from: seq<Descriptor>)
    requires from != []
    ensures Total(from) > 0 ==>
              (Sum(from) < 0x1_0000_0000_0000_0000 <==>
               forall i {:trigger PicksOf(from, i)} :: 0 <= i < |from| ==> |PicksOf(from, i)| == from[i].bandwidth)
    ensures Total(from) == 0 ==>
              forall draw: nat {:trigger Pick(from, draw)} :: draw < |from| ==> Pick(from, draw) == draw
  {
    if Total(from) > 0 {
      DrawIsProportional(from);
      forall i | 0 <= i < |from| ensures PicksOf(from, i) == DrawsFor(from, i) {
        forall draw: nat | draw < Total(from) ensures Pick(from, draw) == i <==> Hits(from, draw, i) {
          AlreadySmall(draw, Total(from));
          PickIsWeighted(from, draw, i);
        }
      }
    } else {
      forall draw: nat | draw < |from| ensures Pick(from, draw) == draw {
        AlreadySmall(draw, |from|);
      }
    }
  }

  /** What is left of a list once some nodes are picked, in its order. */
  function Left(nodes: seq<Descriptor>, picked: seq<Descriptor>, allowSameIp: bool): (r: seq<Descriptor>)
    ensures forall n :: n in r <==> n in nodes && n !in picked && CompatibleWithAll(n, picked, allowSameIp)
  {
    if nodes == [] then []
    else
      var rest := Left(nodes[1..], picked, allowSameIp);
      assert nodes == [nodes[0]] + nodes[1..];
      if nodes[0] !in picked && CompatibleWithAll(nodes[0], picked, allowSameIp) then [nodes[0]] + rest else rest
  }

  lemma {:induction false} RetainIsLeft(nodes: seq<Descriptor>, picked: seq<Descriptor>, allowSameIp: bool)
    requires forall n :: n in nodes ==> n !in picked
    ensures Retain(nodes, TakenIps(picked, allowSameIp), TakenOperators(picked), allowSameIp)
            == Left(nodes, picked, allowSameIp)
  {
    if nodes != [] {
      AllowedIsCompatible(nodes[0], picked, allowSameIp);
      RetainIsLeft(nodes[1..], picked, allowSameIp);
    }
  }

  lemma {:induction false} LeftAppend(a: seq<Descriptor>, b: seq<Descriptor>, picked: seq<Descriptor>,
      allowSameIp: bool)
    ensures Left(a + b, picked, allowSameIp) == Left(a, picked, allowSameIp) + Left(b, picked, allowSameIp)
  {
    hide CompatibleWithAll;
    if a == [] {
      assert a + b == b;
    } else {
      assert (a + b)[0] == a[0] && (a + b)[1..] == a[1..] + b;
      LeftAppend(a[1..], b, picked, allowSameIp);
    }
  }

  lemma {:induction false} LeftOne(n: Descriptor, picked: seq<Descriptor>, allowSameIp: bool)
    ensures n in picked ==> Left([n], picked, allowSameIp) == []
  {
    assert [n][1..] == [];
  }

  /** A node that is picked is not left anyway. */
  lemma {:induction false} LeftWithout(nodes: seq<Descriptor>, i: nat, picked: seq<Descriptor>, allowSameIp: bool)
    requires i < |nodes| && nodes[i] in picked
    ensures Left(Without(nodes, i), picked, allowSameIp) == Left(nodes, picked, allowSameIp)
  {
    hide Left;
    var a, b := nodes[..i], nodes[i + 1..];
    assert nodes == a + ([nodes[i]] + b);
    LeftAppend(a, [nodes[i]] + b, picked, allowSameIp);
    LeftAppend([nodes[i]], b, picked, allowSameIp);
    LeftAppend(a, b, picked, allowSameIp);
    LeftOne(nodes[i], picked, allowSameIp);
  }

  /** Picking more leaves less. */
  lemma {:induction false} LeftOfLeft(nodes: seq<Descriptor>, picked: seq<Descriptor>, more: seq<Descriptor>,
      allowSameIp: bool)
    requires forall p :: p in picked ==> p in more
    ensures Left(Left(nodes, picked, allowSameIp), more, allowSameIp) == Left(nodes, more, allowSameIp)
  {
    if nodes != [] {
      LeftOfLeft(nodes[1..], picked, more, allowSameIp);
      var n, rest := nodes[0], Left(nodes[1..], picked, allowSameIp);
      assert ([n] + rest)[1..] == rest;
      assert CompatibleWithAll(n, more, allowSameIp) ==> CompatibleWithAll(n, picked, allowSameIp);
    }
  }

  lemma {:induction false} LeftDistinct(nodes: seq<Descriptor>, picked: seq<Descriptor>, allowSameIp: bool)
    requires DistinctIds(nodes)
    ensures DistinctIds(Left(nodes, picked, allowSameIp))
  {
    if nodes != [] {
      LeftDistinct(nodes[1..], picked, allowSameIp);
      var rest := Left(nodes[1..], picked, allowSameIp);
      forall j | 0 <= j < |rest| ensures rest[j].nodeId != nodes[0].nodeId {
        assert rest[j] in nodes[1..];
      }
    }
  }

  /** `n` is the node of the list that the draw falls on. */
  ghost predicate Draws(from: seq<Descriptor>, draw: nat, n: Descriptor) {
    exists i: nat {:trigger FallsOn(from, draw, i)} :: FallsOn(from, draw, i) && from[i] == n
  }

  lemma {:induction false} PickDraws(from: seq<Descriptor>, draw: nat)
    requires from != []
    ensures Draws(from, draw, from[Pick(from, draw)])
  {
    hide FallsOn;
    PickIsWeighted(from, draw, Pick(from, draw));
  }

  lemma {:induction false} LeftAfter(middles: seq<Descriptor>, picked: seq<Descriptor>, i: nat, allowSameIp: bool)
    requires DistinctIds(middles) && i < |Left(middles, picked, allowSameIp)|
    ensures var left := Left(middles, picked, allowSameIp);
            var picked' := picked + [left[i]];
            Retain(Without(left, i), TakenIps(picked', allowSameIp), TakenOperators(picked'), allowSameIp)
            == Left(middles, picked', allowSameIp)
  {
    hide Retain, TakenIps, TakenOperators, CompatibleWithAll;
    var left := Left(middles, picked, allowSameIp);
    var picked' := picked + [left[i]];
    LeftDistinct(middles, picked, allowSameIp);
    RetainIsLeft(Without(left, i), picked', allowSameIp);
    LeftWithout(left, i, picked', allowSameIp);
    LeftOfLeft(middles, picked, picked', allowSameIp);
  }

  /** Middle after middle is what its draw falls on among those left by then. */
  ghost predicate AllDrawn(middles: seq<Descriptor>, picked: seq<Descriptor>, more: seq<Descriptor>,
      allowSameIp: bool, draws: seq<nat>)
    decreases |more|
  {
    && |more| == |draws|
    && (more != [] ==>
          && Draws(Left(middles, picked, allowSameIp), draws[0], more[0])
          && AllDrawn(middles, picked + [more[0]], more[1..], allowSameIp, draws[1..]))
  }

  lemma {:induction false} DrawnAt(middles: seq<Descriptor>, picked: seq<Descriptor>, more: seq<Descriptor>,
      allowSameIp: bool, draws: seq<nat>, k: nat)
    requires AllDrawn(middles, picked, more, allowSameIp, draws) && k < |more|
    ensures Draws(Left(middles, picked + more[..k], allowSameIp), draws[k], more[k])
    decreases k
  {
    hide Draws, Left;
    if k == 0 {
      assert picked + more[..0] == picked;
    } else {
      DrawnAt(middles, picked + [more[0]], more[1..], allowSameIp, draws[1..], k - 1);
      assert (picked + [more[0]]) + more[1..][..k - 1] == picked + more[..k];
    }
  }

  lemma {:induction false} MiddlesAreDrawn(available: seq<Descriptor>, middles: seq<Descriptor>,
      picked: seq<Descriptor>, allowSameIp: bool, draws: seq<nat>) returns (more: seq<Descriptor>)
    requires DistinctIds(middles)
    requires Retain(available, TakenIps(picked, allowSameIp), TakenOperators(picked), allowSameIp)
             == Left(middles, picked, allowSameIp)
    requires ChooseMiddles(available, picked, allowSameIp, draws).Ok?
    ensures ChooseMiddles(available, picked, allowSameIp, draws) == Ok(picked + more)
    ensures AllDrawn(middles, picked, more, allowSameIp, draws)
    decreases |draws|
  {
    hide Retain, TakenIps, TakenOperators, Left, Pick, Draws, Without, DistinctIds, CompatibleWithAll;
    if draws == [] {
      more := [];
      assert picked + [] == picked;
    } else {
      var left := Left(middles, picked, allowSameIp);
      var i := Pick(left, draws[0]);
      PickDraws(left, draws[0]);
      LeftAfter(middles, picked, i, allowSameIp);
      var rest := MiddlesAreDrawn(Without(left, i), middles, picked + [left[i]], allowSameIp, draws[1..]);
      more := [left[i]] + rest;
      assert more[1..] == rest && (picked + [left[i]]) + rest == picked + more;
    }
  }

  /** A path with a hop per draw, whose exit, entry and middles are those that the draws fall on. */
  ghost predicate DrawnPath(exits: seq<Descriptor>, entries: seq<Descriptor>, middles: seq<Descriptor>,
      allowSameIp: bool, draws: seq<nat>, path: seq<Descriptor>)
  {
    && |path| == |draws| >= 3
    && Draws(exits, draws[0], path[|path| - 1]) && Draws(entries, draws[1], path[0])
    && forall k {:trigger path[k]} :: 1 <= k < |path| - 1 ==>
         Draws(Left(middles, [path[|path| - 1]] + path[..k], allowSameIp), draws[k + 1], path[k])
  }

  /** Hop by hop, a path is what the weighted draws fall on: the exit among all exits, the entry among all
      entries, and each middle among exactly those that are left once exit, entry and the middles before it are
      picked. */
  lemma {:induction false} PathIsDrawn(nodes: Nodes, exits: seq<Descriptor>, entries: seq<Descriptor>,
      middles: seq<Descriptor>, allowSameIp: bool, draws: seq<nat>)
    requires Lists(nodes, Exit, exits) && Lists(nodes, Entry, entries) && Lists(nodes, Middle, middles)
    requires ChoosePath(exits, entries, middles, allowSameIp, draws).Ok?
    ensures DrawnPath(exits, entries, middles, allowSameIp, draws,
                ChoosePath(exits, entries, middles, allowSameIp, draws).value)
  {
    hide Draws, Left, Pick, Retain, TakenIps, TakenOperators, ChooseMiddles, Compatible, SameIp, SameOperator;
    var path := ChoosePath(exits, entries, middles, allowSameIp, draws).value;
    var exit, entry := exits[Pick(exits, draws[0])], entries[Pick(entries, draws[1])];
    PickDraws(exits, draws[0]);
    PickDraws(entries, draws[1]);
    assert exit in exits && entry in entries;
    forall n | n in middles ensures n !in [exit, entry] {
      assert Offers(nodes, n, Middle) && Offers(nodes, exit, Exit) && Offers(nodes, entry, Entry);
    }
    RetainIsLeft(middles, [exit, entry], allowSameIp);
    var more := MiddlesAreDrawn(middles, middles, [exit, entry], allowSameIp, draws[2..]);
    assert ([exit, entry] + more)[1..] == [entry] + more;
    assert path == ([entry] + more) + [exit];
    hide ChoosePath, AllDrawn;
    forall k {:trigger path[k]} | 1 <= k < |path| - 1
      ensures Draws(Left(middles, [path[|path| - 1]] + path[..k], allowSameIp), draws[k + 1], path[k])
    {
      DrawnAt(middles, [exit, entry], more, allowSameIp, draws[2..], k - 1);
      assert draws[2..][k - 1] == draws[k + 1];
      assert [exit, entry] + more[..k - 1] == [path[|path| - 1]] + path[..k];
    }
  }

  /** Two nodes are in conflict exactly if they name one operator, or have one IP where that is not allowed and the
      IP is not 127.0.0.0/8 or ::1. */
  lemma {:induction false} ConflictIff(a: Descriptor, b: Descriptor, allowSameIp: bool)
    ensures var ip := a.address.ip;
            !Compatible(a, b, allowSameIp) <==>
              || (a.operator.Some? && b.operator.Some? && a.operator.value == b.operator.value)
              || (!allowSameIp && ip == b.address.ip && !(|ip| == 4 && ip[0] == 127)
                  && !(|ip| == 16 && ip[15] == 1 && forall i {:trigger ip[i]} :: 0 <= i < 15 ==> ip[i] == 0))
  {
    var ip := a.address.ip;
    if |ip| == 16 && ip[15] == 1 && forall i {:trigger ip[i]} :: 0 <= i < 15 ==> ip[i] == 0 {
      assert ip == seq(15, _ => 0) + [1];
    }
  }

  /** What a good path keeps apart, spelled out: no two hops with one id or one operator, and no two with one IP
      unless that is allowed or the IP is 127.0.0.0/8 or ::1. */
  lemma {:induction false} HopsShareNothing(nodes: Nodes, path: seq<Descriptor>, allowSameIp: bool, i: nat, j: nat)
    requires GoodPath(nodes, path, allowSameIp) && i < j < |path|
    ensures path[i].nodeId != path[j].nodeId
    ensures path[i].operator.Some? ==> path[i].operator != path[j].operator
    ensures var ip := path[i].address.ip;
            ip == path[j].address.ip ==>
              || allowSameIp || (|ip| == 4 && ip[0] == 127)
              || (|ip| == 16 && ip[15] == 1 && forall b {:trigger ip[b]} :: 0 <= b < 15 ==> ip[b] == 0)
  {
    assert Compatible(path[i], path[j], allowSameIp);
  }

  class NodeRegistry {
    var nodes: Nodes
    const allowSameIp: bool

    constructor (allowSameIp: bool)
      ensures nodes == map[] && this.allowSameIp == allowSameIp
    {
      nodes := map[];
      this.allowSameIp := allowSameIp;
    }

    method RegisterNode(d: Descriptor, now: nat)
      modifies this`nodes
      ensures nodes == After(old(nodes), Register(d), now)
    {
      nodes := map id | id in nodes && (id == d.nodeId || nodes[id].descriptor.address != d.address) :: nodes[id];
      if d.nodeId !in nodes {
        nodes := nodes[d.nodeId := NodeEntry(d, now, now, None)];
      } else {
        nodes := nodes[d.nodeId := nodes[d.nodeId].(descriptor := d, lastHeartbeat := now)];
      }
    }

    /** With metrics or without. */
    method UpdateHeartbeat(id: string, metrics: Option<nat>, now: nat) returns (found: bool)
      modifies this`nodes
      ensures nodes == After(old(nodes), Heartbeat(id, metrics), now) && found == (id in old(nodes))
    {
      found := id in nodes;
      if found {
        nodes := nodes[id := nodes[id].(lastHeartbeat := now)];
        if metrics.Some? {
          nodes := nodes[id := nodes[id].(metrics := metrics)];
        }
      }
    }

    method RemoveNode(id: string) returns (found: bool)
      modifies this`nodes
      ensures (forall now :: nodes == After(old(nodes), Remove(id), now)) && found == (id in old(nodes))
    {
      found := id in nodes;
      nodes := nodes - {id};
    }

    method CleanupStaleNodes(timeout: nat, now: nat) returns (removed: nat)
      modifies this`nodes
      ensures nodes == After(old(nodes), Cleanup(timeout), now)
      ensures removed == |set id | id in old(nodes) && Stale(old(nodes)[id], now, timeout)|
    {
      ghost var was := nodes;
      var before := |nodes|;
      nodes := map id | id in nodes && !Stale(nodes[id], now, timeout) :: nodes[id];
      CleanupExactly(was, now, timeout);
      removed := before - |nodes|;
    }

    /** In whatever order the map yields them. */
    method GetNodesByType(t: NodeType) returns (found: seq<Descriptor>)
      requires OwnKeys(nodes)
      ensures DistinctIds(found) && |found| == |OfType(nodes, t)|
      ensures forall d :: d in found <==> Offers(nodes, d, t)
    {
      hide Found, OfType, OwnKeys;
      found := [];
      var todo := nodes.Keys;
      ghost var seen: set<string> := {};
      FoundNone(nodes, t);
      while todo != {}
        invariant todo + seen == nodes.Keys && todo !! seen && Found(nodes, seen, t, found)
        decreases |todo|
      {
        var id :| id in todo;
        FoundNext(nodes, seen, id, t, found);
        todo, seen := todo - {id}, seen + {id};
        if nodes[id].descriptor.nodeType == t {
          found := found + [nodes[id].descriptor];
        }
      }
      FoundAll(nodes, t, found);
    }

    method SelectWeightedNode(from: seq<Descriptor>, draw: nat) returns (i: nat)
      requires from != []
      ensures i == Pick(from, draw)
      ensures Total(from) > 0 ==> from[i].bandwidth > 0
    {
      assert 0 < Choices(from);
      var r := SelectWeightedIndex(from, draw % Choices(from));
      i := r.value;
      SumStep(from, i);
    }

    /** Fill the middle slots one by one; both exclusion sets grow after every pick. */
    method FillSlots(exit: Descriptor, entry: Descriptor, middles: seq<Descriptor>, draws: seq<nat>)
      returns (r: Result<seq<Descriptor>, RegistryError>)
      ensures r == ChooseMiddles(middles, [exit, entry], allowSameIp, draws)
    {
      hide TakenIps, TakenOperators, Pick, Retain, Without;
      var picked := [exit, entry];
      var ips, operators := TakenIps(picked, allowSameIp), TakenOperators(picked);
      var available := middles;
      var slot := 0;
      while slot < |draws|
        invariant slot <= |draws|
        invariant ips == TakenIps(picked, allowSameIp) && operators == TakenOperators(picked)
        invariant ChooseMiddles(available, picked, allowSameIp, draws[slot..])
                  == ChooseMiddles(middles, [exit, entry], allowSameIp, draws)
      {
        available := Retain(available, ips, operators, allowSameIp);
        if |available| < |draws| - slot {
          return Err(NoMiddleLeft(picked, |draws| - slot, |available|));
        }
        var i := SelectWeightedNode(available, draws[slot]);
        var node := available[i];
        available := Without(available, i);
        TakenGrows(picked, node, allowSameIp);
        ips := if !allowSameIp && !Loopback(node.address.ip) then ips + {node.address.ip} else ips;
        operators := if node.operator.Some? then operators + {node.operator.value} else operators;
        picked := picked + [node];
        assert draws[slot..][1..] == draws[slot + 1..];
        slot := slot + 1;
      }
      r := Ok(picked);
    }

    /** Whatever is drawn, the middles are legal, or the partial path has no legal completion. */
    method PickMiddles(exit: Descriptor, entry: Descriptor, middles: seq<Descriptor>, draws: seq<nat>)
      returns (r: Result<seq<Descriptor>, RegistryError>)
      requires Partial(nodes, [exit, entry], allowSameIp) && Lists(nodes, Middle, middles)
      ensures r == ChooseMiddles(middles, [exit, entry], allowSameIp, draws)
      ensures match r
              case Ok(picked) => Partial(nodes, picked, allowSameIp) && |picked| == 2 + |draws|
                  && [exit, entry] <= picked
              case Err(NoMiddleLeft(picked, need, remain)) =>
                && Partial(nodes, picked, allowSameIp) && |picked| + need == 2 + |draws| && [exit, entry] <= picked
                && remain < need
                && forall more: seq<Descriptor> :: |more| == need ==> !Completes(picked, more, nodes, allowSameIp)
              case _ => false
      ensures NoConflicts(nodes, allowSameIp) && |middles| >= |draws| ==> r.Ok?
    {
      hide Partial, Pool, NoConflicts, Completes, ChooseMiddles;
      WholePool(nodes, exit, entry, middles, allowSameIp);
      MiddlesAreRight(middles, nodes, [exit, entry], allowSameIp, |middles|, draws);
      r := FillSlots(exit, entry, middles, draws);
    }

    /** Exit first, then an entry that may not share its IP or operator. */
    method PickEnds(exits: seq<Descriptor>, entries: seq<Descriptor>, d: nat, d': nat)
      returns (r: Result<(Descriptor, Descriptor), RegistryError>)
      requires exits != [] && entries != [] && Lists(nodes, Exit, exits) && Lists(nodes, Entry, entries)
      ensures r == ChooseEnds(exits, entries, allowSameIp, d, d')
      ensures r.Ok? ==> Partial(nodes, [r.value.0, r.value.1], allowSameIp)
      ensures r.Err? ==>
                (r.error == SharedIp || r.error == SharedOperator) && BadEnds(nodes, allowSameIp, r.error)
      ensures NoConflicts(nodes, allowSameIp) ==> r.Ok?
    {
      hide Partial, Pick, NoConflicts, BadEnds, Lists;
      EndsAreRight(nodes, exits, entries, allowSameIp, d, d');
      var e := SelectWeightedNode(exits, d);
      var exit := exits[e];
      var ips: set<seq<byte>> := {};
      var operators: set<string> := {};
      if !allowSameIp && !Loopback(exit.address.ip) {
        ips := ips + {exit.address.ip};
      }
      if exit.operator.Some? {
        operators := operators + {exit.operator.value};
      }
      var n := SelectWeightedNode(entries, d');
      var entry := entries[n];
      if !allowSameIp && !Loopback(entry.address.ip) && entry.address.ip in ips {
        return Err(SharedIp);
      }
      if entry.operator.Some? && entry.operator.value in operators {
        return Err(SharedOperator);
      }
      r := Ok((exit, entry));
    }

    /** A path with a hop per draw: exit first, then entry, then the middles. Its result is sound whatever is
        drawn, its failures are real, and where nothing conflicts it fails only for lack of nodes. */
    method GetRandomPath(count: nat, draws: seq<nat>) returns (r: Result<seq<Descriptor>, RegistryError>)
      requires OwnKeys(nodes) && |draws| == count
      ensures exists exits, entries, middles
                {:trigger Lists(nodes, Exit, exits), Lists(nodes, Entry, entries), Lists(nodes, Middle, middles)} ::
                && Lists(nodes, Exit, exits) && Lists(nodes, Entry, entries) && Lists(nodes, Middle, middles)
                && r == ChoosePath(exits, entries, middles, allowSameIp, draws)
                && (r.Ok? ==> DrawnPath(exits, entries, middles, allowSameIp, draws, r.value))
      ensures r.Ok? ==> |r.value| == count && GoodPath(nodes, r.value, allowSameIp)
      ensures r.Err? && r.error.NoMiddleLeft? ==>
                var e := r.error;
                && Partial(nodes, e.picked, allowSameIp) && |e.picked| + e.need == count && e.remain < e.need
                && forall more: seq<Descriptor> :: |more| == e.need ==> !Completes(e.picked, more, nodes, allowSameIp)
      ensures r == Err(SharedIp) || r == Err(SharedOperator) ==> BadEnds(nodes, allowSameIp, r.error)
      ensures r == Err(HopCountTooLow(count)) <==> count < 3
      ensures r == Err(NoEntries) ==> OfType(nodes, Entry) == {}
      ensures r == Err(NoMiddles) ==> OfType(nodes, Middle) == {}
      ensures r == Err(NoExits) ==> OfType(nodes, Exit) == {}
      ensures r.Err? && r.error.TooFewMiddles? ==>
                r.error == TooFewMiddles(count - 2, |OfType(nodes, Middle)|) && |OfType(nodes, Middle)| < count - 2
      ensures r.Ok? ==> Enough(nodes, count)
      ensures NoConflicts(nodes, allowSameIp) ==> (r.Ok? <==> Enough(nodes, count))
    {
      hide Partial, GoodPath, DistinctIds, OfType, OwnKeys, NoConflicts, Completes, BadEnds, ChooseEnds, ChooseMiddles,
        DrawnPath;
      var entries := GetNodesByType(Entry);
      var middles := GetNodesByType(Middle);
      var exits := GetNodesByType(Exit);
      assert Lists(nodes, Exit, exits) && Lists(nodes, Entry, entries) && Lists(nodes, Middle, middles);
      hide Lists;
      if count < 3 {
        return Err(HopCountTooLow(count));
      }
      if entries == [] {
        return Err(NoEntries);
      }
      if middles == [] {
        return Err(NoMiddles);
      }
      if |middles| < count - 2 {
        return Err(TooFewMiddles(count - 2, |middles|));
      }
      if exits == [] {
        return Err(NoExits);
      }
      var ends := PickEnds(exits, entries, draws[0], draws[1]);
      if ends.Err? {
        return Err(ends.error);
      }
      var (exit, entry) := ends.value;
      var picked := PickMiddles(exit, entry, middles, draws[2..]);
      if picked.Err? {
        return picked;
      }
      PathOfPicked(nodes, picked.value, allowSameIp);
      PathIsDrawn(nodes, exits, entries, middles, allowSameIp, draws);
      r := Ok(picked.value[1..] + [picked.value[0]]);
    }
  }
}
