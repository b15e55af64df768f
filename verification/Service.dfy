/** The connection loop of a relay and the steps of the network are the same thing: what the loop does with the
    cells on a wire, and leaves in its table of circuits, is what a run of the network does. */
module Service {
  import opened Common
  import opened Cells
  import opened Crypto
  import opened Pipeline
  import opened Relay
  import opened Handshake
  import opened ExtendCodec
  import opened Telescope
  import opened Connection
  import opened Network
  import opened Sync
  import opened Runs
  import opened Draining
  import Exit

  /** Each cell of a wire with its chance. */
  function With(wire: seq<Message>, chances: seq<Chance>): (r: seq<(Message, Chance)>)
    requires |chances| == |wire|
    ensures |r| == |wire|
  {
    seq(|wire|, i requires 0 <= i < |wire| => (wire[i], chances[i]))
  }

  lemma {:induction false} WithRest(wire: seq<Message>, chances: seq<Chance>)
    requires |chances| == |wire| > 0
    ensures With(wire, chances)[0] == (wire[0], chances[0])
    ensures With(wire, chances)[1..] == With(wire[1..], chances[1..])
  {
  }

  function Onwards(cells: seq<Message>): (r: seq<Event>)
    ensures |r| == |cells|
  {
    seq(|cells|, i requires 0 <= i < |cells| => ToNext(cells[i]))
  }

  function Back(cells: seq<Message>): (r: seq<Event>)
    ensures |r| == |cells|
  {
    seq(|cells|, i requires 0 <= i < |cells| => ToPrevious(cells[i]))
  }

  /** A relay runs with what the circuit was made with. */
  ghost predicate RunsOn(e: Env, x: Circ) {
    e.mask == x.mask && e.hash == x.hash
  }

  lemma {:induction false} Dispatched(e: Env, circuits: Circuits, msg: Message, chance: Chance)
    requires msg.command != Create && msg.circuit in circuits
    ensures var (h, r) := Handle(e, circuits[msg.circuit], msg, chance);
            Dispatch(e, circuits, msg, chance) == (circuits[msg.circuit := h], r)
  {
    hide Handle;
  }

  /** The cells that a relay passes on, as far as it does not fail. */
  function Passed(act: RelayAction): seq<Message> {
    if act.Forwarded? then [act.cell] else []
  }

  lemma {:induction false} RelayHandled(x: Circ, e: Env, s: RelayState, reading: bool, msg: Message, chance: Chance)
    requires RunsOn(e, x) && UpCell(x, msg)
    requires var act := ForwardStep(x, s, msg).1; act.Forwarded? || act.Quiet?
    ensures var (s', act) := ForwardStep(x, s, msg);
            Handle(e, AtRelay(s, reading), msg, chance) == (AtRelay(s', reading), Ok(Onwards(Passed(act))))
  {
    hide Layer;
    assert Circ(e.mask, e.hash, x.id) == x;
    var act := ForwardStep(x, s, msg).1;
    assert Onwards(Passed(act)) == if act.Forwarded? then [ToNext(act.cell)] else [];
  }

  /** One cell at an entry or middle relay is one `RelayUp`. */
  lemma {:induction false} RelayTurn(x: Circ, e: Env, w: World, i: nat, circuits: Circuits,
      reading: bool, chance: Chance) returns (cells: seq<Message>)
    requires Shape(w) && AllUp(x, w.up) && CanRelayUp(x, w, i) && RunsOn(e, x)
    requires x.id in circuits && circuits[x.id] == AtRelay(w.relays[i], reading)
    ensures var w' := RelayTakes(x, w, i);
            && |w'.relays| == |w.relays|
            && Dispatch(e, circuits, w.up[i][0], chance)
               == (circuits[x.id := AtRelay(w'.relays[i], reading)], Ok(Onwards(cells)))
            && w'.up[i] == w.up[i][1..] && w'.up[i + 1] == w.up[i + 1] + cells
  {
    hide ForwardStep, Dispatch, Handle, Onwards;
    AllUpTake(x, w.up, i);
    Dispatched(e, circuits, w.up[i][0], chance);
    RelayHandled(x, e, w.relays[i], reading, w.up[i][0], chance);
    cells := Passed(ForwardStep(x, w.relays[i], w.up[i][0]).1);
    assert w.up[i + 1] + [] == w.up[i + 1];
  }

  lemma {:induction false} RelayMade(x: Circ, e: Env, w: World, i: nat, pairs: seq<Pair>, circuits: Circuits,
      reading: bool, chance: Chance) returns (w': World, cells: seq<Message>)
    requires Lockstep(x, w, pairs) && Enabled(x, w, RelayUp(i)) && RunsOn(e, x)
    requires x.id in circuits && circuits[x.id] == AtRelay(w.relays[i], reading)
    ensures w' == Apply(x, w, RelayUp(i)) && |w'.relays| == |w.relays| && i + 1 < |w.up| == |w'.up|
    ensures w.up[i] != []
    ensures Dispatch(e, circuits, w.up[i][0], chance)
            == (circuits[x.id := AtRelay(w'.relays[i], reading)], Ok(Onwards(cells)))
    ensures w'.up[i] == w.up[i][1..] && w'.up[i + 1] == w.up[i + 1] + cells
  {
    hide UpSync, DownSync, AllUp, AllDown, ForwardStep, Dispatch;
    cells := RelayTurn(x, e, w, i, circuits, reading, chance);
    w' := Apply(x, w, RelayUp(i));
  }

  /** The loop at a relay, over all that waits on the wire from the client's side: a run of `RelayUp`. */
  lemma {:induction false} RelayServes(x: Circ, e: Env, w: World, i: nat, pairs: seq<Pair>, circuits: Circuits,
      reading: bool, chances: seq<Chance>) returns (w': World, cells: seq<Message>)
    requires Lockstep(x, w, pairs) && i < |w.relays| && RunsOn(e, x) && |chances| == |w.up[i]|
    requires x.id in circuits && circuits[x.id] == AtRelay(w.relays[i], reading)
    ensures Run(x, w, Repeat(RelayUp(i), |w.up[i]|)) == Some(w') && Lockstep(x, w', pairs)
    ensures |w'.relays| == |w.relays| && w'.up[i] == [] && w'.up[i + 1] == w.up[i + 1] + cells
    ensures ServeAll(e, circuits, With(w.up[i], chances))
            == Outcome(circuits[x.id := AtRelay(w'.relays[i], reading)], Onwards(cells), None)
    decreases |w.up[i]|
  {
    hide UpSync, DownSync, Tidy, Dispatch, Apply, Enabled;
    ShapeIs(x, w, pairs);
    if w.up[i] == [] {
      w', cells := w, [];
      assert circuits[x.id := circuits[x.id]] == circuits;
    } else {
      RelaysAcceptAll(x, w, pairs, i);
      LockstepStep(x, w, RelayUp(i), pairs);
      var w1, first := RelayMade(x, e, w, i, pairs, circuits, reading, chances[0]);
      assert |w.up[i]| == |w1.up[i]| + 1;
      var circuits1 := circuits[x.id := AtRelay(w1.relays[i], reading)];
      var rest;
      w', rest := RelayServes(x, e, w1, i, pairs, circuits1, reading, chances[1..]);
      cells := first + rest;
      WithRest(w.up[i], chances);
      assert Repeat(RelayUp(i), |w.up[i]|)[1..] == Repeat(RelayUp(i), |w1.up[i]|);
      assert Onwards(cells) == Onwards(first) + Onwards(rest);
      assert circuits1[x.id := AtRelay(w'.relays[i], reading)] == circuits[x.id := AtRelay(w'.relays[i], reading)];
    }
  }

  /** One cell at an exit is one `ExitTake`, and a `WriteReply` if it was answered after the lock was released. */
  lemma {:induction false} ExitTurn(x: Circ, e: Env, w: World, pairs: seq<Pair>, circuits: Circuits, chance: Chance)
    returns (actions: seq<Action>, w': World, cells: seq<Message>)
    requires Lockstep(x, w, pairs) && w.up[|w.relays|] != [] && w.reply.None? && RunsOn(e, x) && Dials(chance.dial)
    requires x.id in circuits && circuits[x.id] == AtExit(w.exit)
    ensures actions == [ExitTake(chance.dial)] || actions == [ExitTake(chance.dial), WriteReply]
    ensures Run(x, w, actions) == Some(w') && Lockstep(x, w', pairs) && w'.reply.None?
    ensures |w'.relays| == |w.relays| && w'.up[|w.relays|] == w.up[|w.relays|][1..] && w'.down[0] == w.down[0] + cells
    ensures Dispatch(e, circuits, w.up[|w.relays|][0], chance) == (circuits[x.id := AtExit(w'.exit)], Ok(Back(cells)))
  {
    hide UpSync, DownSync, Apply, Enabled;
    ShapeIs(x, w, pairs);
    ExitMoves(x, w, chance.dial, pairs);
    LockstepStep(x, w, ExitTake(chance.dial), pairs);
    var w1;
    w1, cells := ExitMade(x, e, w, pairs, circuits, chance);
    ShapeIs(x, w1, pairs);
    if w1.reply.Some? {
      ReplyMoves(x, w1, pairs);
      LockstepStep(x, w1, WriteReply, pairs);
      w' := Apply(x, w1, WriteReply);
      ReplyWrites(x, w1);
      actions := [ExitTake(chance.dial), WriteReply];
      assert actions[1..] == [WriteReply] && [WriteReply][1..] == [];
      assert Run(x, w1, [WriteReply]) == Some(w');
    } else {
      w' := w1;
      actions := [ExitTake(chance.dial)];
      assert actions[1..] == [];
    }
  }

  lemma {:induction false} ExitMade(x: Circ, e: Env, w: World, pairs: seq<Pair>, circuits: Circuits, chance: Chance)
    returns (w': World, cells: seq<Message>)
    requires Lockstep(x, w, pairs) && Enabled(x, w, ExitTake(chance.dial)) && RunsOn(e, x)
    requires x.id in circuits && circuits[x.id] == AtExit(w.exit)
    ensures w' == Apply(x, w, ExitTake(chance.dial)) && |w.up| == |w'.up| == |w.relays| + 1 && |w'.relays| == |w.relays|
    ensures |w'.down| == |w.down| > 0 && w.up[|w.relays|] != []
    ensures Dispatch(e, circuits, w.up[|w.relays|][0], chance) == (circuits[x.id := AtExit(w'.exit)], Ok(Back(cells)))
    ensures w'.up[|w.relays|] == w.up[|w.relays|][1..]
    ensures w.down[0] + cells == (if w'.reply.Some? then w'.down[0] + [w'.reply.value] else w'.down[0])
  {
    hide UpSync, DownSync, AllUp, AllDown, ExitTakes, Dispatch, Exit.ExitStep;
    cells := ExitWrites(x, e, w, circuits, chance);
    w' := Apply(x, w, ExitTake(chance.dial));
  }

  lemma {:induction false} ReplyWrites(x: Circ, w: World)
    requires Enabled(x, w, WriteReply)
    ensures var w' := Apply(x, w, WriteReply);
            && w'.down[0] == w.down[0] + [w.reply.value] && w'.exit == w.exit && w'.up == w.up && w'.relays == w.relays
  {
  }

  /** The cells that an exit writes, at once or once the lock is released. */
  function Answered(act: Exit.ExitAction): seq<Message> {
    if act.Wrote? || act.Reply? then [act.cell] else []
  }

  lemma {:induction false} ExitHandled(x: Circ, e: Env, s: Exit.ExitState, msg: Message, chance: Chance)
    requires RunsOn(e, x) && UpCell(x, msg) && !Exit.ExitStep(x, s, msg, chance.dial).1.Failed?
    ensures var (s', act) := Exit.ExitStep(x, s, msg, chance.dial);
            Handle(e, AtExit(s), msg, chance) == (AtExit(s'), Ok(Back(Answered(act))))
  {
    hide Exit.ExitStep;
    assert Circ(e.mask, e.hash, x.id) == x;
    var act := Exit.ExitStep(x, s, msg, chance.dial).1;
    assert Back(Answered(act)) == if act.Quiet? then [] else [ToPrevious(act.cell)];
  }

  lemma {:induction false} PaddingIsQuiet(x: Circ, s: Exit.ExitState, msg: Message, dial: Exit.Dial)
    requires UpCell(x, msg) && !IsTraffic(msg)
    ensures Exit.ExitStep(x, s, msg, dial) == (s, Exit.ExitAction.Quiet)
  {
  }

  lemma {:induction false} ExitWrites(x: Circ, e: Env, w: World, circuits: Circuits, chance: Chance)
    returns (cells: seq<Message>)
    requires Shape(w) && AllUp(x, w.up) && CanExitTake(x, w, chance.dial) && RunsOn(e, x)
    requires x.id in circuits && circuits[x.id] == AtExit(w.exit)
    ensures var w' := ExitTakes(x, w, chance.dial);
            && Dispatch(e, circuits, w.up[|w.relays|][0], chance)
               == (circuits[x.id := AtExit(w'.exit)], Ok(Back(cells)))
            && |w'.relays| == |w.relays| && |w'.up| == |w.up| && |w'.down| == |w.down|
            && w'.up[|w.relays|] == w.up[|w.relays|][1..]
            && w.down[0] + cells == (if w'.reply.Some? then w'.down[0] + [w'.reply.value] else w'.down[0])
  {
    var msg := w.up[|w.relays|][0];
    AllUpTake(x, w.up, |w.relays|);
    Dispatched(e, circuits, msg, chance);
    ExitHandled(x, e, w.exit, msg, chance);
    var act := Exit.ExitStep(x, w.exit, msg, chance.dial).1;
    cells := Answered(act);
    assert w.down[0] + [] == w.down[0];
    if !IsTraffic(msg) {
      PaddingIsQuiet(x, w.exit, msg, chance.dial);
    } else {
      Exit.ExitEffect(x, w.exit, msg, chance.dial);
    }
    hide Exit.Open, Exit.ExitStep, Exit.ExitAnswer, Dispatch, Handle, Back;
  }

  /** The loop at the exit, over all that waits on its wire: a run of `ExitTake` and `WriteReply`. */
  lemma {:induction false} ExitServes(x: Circ, e: Env, w: World, pairs: seq<Pair>, circuits: Circuits,
      chances: seq<Chance>) returns (actions: seq<Action>, w': World, cells: seq<Message>)
    requires Lockstep(x, w, pairs) && w.reply.None? && RunsOn(e, x) && |chances| == |w.up[|w.relays|]|
    requires forall c :: c in chances ==> Dials(c.dial)
    requires x.id in circuits && circuits[x.id] == AtExit(w.exit)
    ensures forall a :: a in actions ==> a.ExitTake? || a == WriteReply
    ensures Run(x, w, actions) == Some(w') && Lockstep(x, w', pairs) && w'.reply.None?
    ensures |w'.relays| == |w.relays| && w'.up[|w.relays|] == [] && w'.down[0] == w.down[0] + cells
    ensures ServeAll(e, circuits, With(w.up[|w.relays|], chances))
            == Outcome(circuits[x.id := AtExit(w'.exit)], Back(cells), None)
    decreases |w.up[|w.relays|]|
  {
    hide UpSync, DownSync, Tidy, Dispatch, Apply, Enabled, Dials, Run;
    ShapeIs(x, w, pairs);
    if w.up[|w.relays|] == [] {
      actions, w', cells := [], w, [];
      assert circuits[x.id := circuits[x.id]] == circuits;
      NoActions(x, w);
    } else {
      var first, w1, head := ExitTurn(x, e, w, pairs, circuits, chances[0]);
      var circuits1 := circuits[x.id := AtExit(w1.exit)];
      var more, rest;
      more, w', rest := ExitServes(x, e, w1, pairs, circuits1, chances[1..]);
      RunAppend(x, w, first, more);
      actions, cells := first + more, head + rest;
      WithRest(w.up[|w.relays|], chances);
      assert Back(cells) == Back(head) + Back(rest);
      assert circuits1[x.id := AtExit(w'.exit)] == circuits[x.id := AtExit(w'.exit)];
    }
  }

  lemma {:induction false} NoActions(x: Circ, w: World)
    ensures Run(x, w, []) == Some(w)
  {
  }

  /* How a circuit comes and goes. */

  /** After CREATE the table holds the circuit under exactly the key that the client makes of the answer. */
  lemma {:induction false} CreateIsKept(e: Env, circuits: Circuits, id: CircuitId, node: Descriptor, secret: Bytes32,
      chance: Chance)
    requires Commutes(e.net.suite) && node.public == e.net.suite.public(e.site.secret)
    ensures var msg := CircuitMessage(id, Create, e.net.suite.public(secret));
            var (circuits', r) := Dispatch(e, circuits, msg, chance);
            && r.Ok? && |r.value| == 1 && r.value[0].ToPrevious?
            && (var finish := FinishWith(e.net.suite, node, secret, r.value[0].cell.data);
                && finish.Ok? && id in circuits' && circuits' - {id} == circuits - {id}
                && circuits'[id]
                   == match e.node
                      case RelayNode(role) => AtRelay(RelayState(role, Some(FreshPair(finish.value)), false), false)
                      case ExitNode =>
                        AtExit(Exit.ExitState(Some(Exit.ExitCrypto(FreshPair(finish.value), [], [])), map[], [])))
  {
    hide ExpandKeySeed, AuthTag, SecretInput;
    var g, client := e.net.suite, e.net.suite.public(secret);
    assert client[..32] == client;
    var reply := NtorServer(g, e.site.secret, node.public, client, chance.drawn);
    var data := reply.ephemeral + reply.auth;
    assert data[..32] == reply.ephemeral && data[32..64] == reply.auth;
    NtorAgreement(g, secret, e.site.secret, chance.drawn, reply.auth);
  }

  /** After EXTEND the hop has a next one and a reader on it, its keystreams moved on by the request and the
      answer, and the answer is on its way under one layer. */
  lemma {:induction false} ExtendIsKept(x: Circ, e: Env, circuits: Circuits, role: Role, tip: Pair, msg: Message,
      node: Descriptor, secret: Bytes32, chance: Chance)
    requires RunsOn(e, x) && msg.circuit == x.id && msg.command == Command.Extend
    requires Commutes(e.net.suite) && Listed(e.net, node)
    requires x.id in circuits && circuits[x.id] == AtRelay(RelayState(role, Some(tip), false), false)
    requires Layer(x.mask, tip.forward, msg.data) == ExtendPayload(e.net, node, secret)
    ensures var (circuits', r) := Dispatch(e, circuits, msg, chance);
            && circuits' == circuits[x.id := AtRelay(RelayState(role, Some(SpentPair(tip, |msg.data|)), true), true)]
            && r.Ok? && |r.value| == 2 && r.value[0].ToPrevious? && r.value[1] == StartsReading(x.id)
            && r.value[0].cell.command == Command.Extended
            && FinishWith(e.net.suite, node, secret, Layer(x.mask, tip.backward, r.value[0].cell.data))
               == Ok(AgreedKey(e.net, node, secret, chance.drawn))
  {
    hide ExtendAt, Layer, FinishWith, AgreedKey, Dialled, ExtendPayload;
    assert Circ(e.mask, e.hash, x.id) == x;
    TipAnswers(x, e.net, role, tip, msg, node, secret, chance.drawn);
    CreateAgrees(x, e.net, node, secret, chance.drawn);
    var d := Dialled(x, e.net, Request(node.address, e.net.suite.public(secret), node.fingerprint), chance.drawn).value;
    LayerTwice(x.mask, tip.backward, d.1.data);
  }

  /** After DESTROY the circuit has no keys and no streams: whatever enciphered comes next ends the connection. */
  lemma {:induction false} DestroyIsKept(e: Env, circuits: Circuits, id: CircuitId, bytes: seq<byte>, msg: Message,
      chance: Chance, chance': Chance)
    requires id in circuits && msg.circuit == id
    requires msg.command == Begin || msg.command == Data || msg.command == Command.End
    ensures var destroy := CircuitMessage(id, Destroy, bytes);
            var (circuits', r) := Dispatch(e, circuits, destroy, chance);
            && r == Ok([]) && id in circuits' && circuits' - {id} == circuits - {id}
            && (circuits'[id].AtExit? ==> circuits'[id].exit.streams == map[])
            && Dispatch(e, circuits', msg, chance').1
               == Err(if circuits[id].AtExit? then ExitFailed(Exit.NoCrypto)
                      else RelayFailed(RelayError.NotEstablished))
  {
  }
}
