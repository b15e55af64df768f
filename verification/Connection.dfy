/** One connection of a relay: messages of many circuits, handled one after the other. */
module Connection {
  import opened Common
  import opened Cells
  import opened Crypto
  import opened Pipeline
  import opened Relay
  import opened Handshake
  import opened Telescope
  import Exit

  datatype NodeType = RelayNode(role: Role) | ExitNode

  /** What a relay runs with. */
  datatype Env = Env(mask: Mask, hash: Hash, net: Net, node: NodeType, site: Site)

  /** One circuit's handler. `reading` says whether a reader was started on its next hop. */
  datatype Handler = AtRelay(relay: RelayState, reading: bool) | AtExit(exit: Exit.ExitState)

  type Circuits = map<CircuitId, Handler>

  /** What comes from outside while one message is handled. */
  datatype Chance = Chance(drawn: Bytes32, dial: Exit.Dial)

  datatype ServeError =
    | NoSuchCircuit
    | NotCreated(create: HopError)
    | NotExtended(extend: HopError)
    | RelayFailed(step: RelayError)
    | ExitFailed(exit: Exit.ExitError)

  /** What a message makes the relay do, in this order. */
  datatype Event = ToPrevious(cell: Message) | ToNext(cell: Message) | StartsReading(circuit: CircuitId)

  function CircuitOf(v: Event): CircuitId {
    if v.StartsReading? then v.circuit else v.cell.circuit
  }

  function CircOf(e: Env, msg: Message): Circ {
    Circ(e.mask, e.hash, msg.circuit)
  }

  /** The handler of an entry or middle relay, for everything but CREATE. */
  function RelayHandles(e: Env, s: RelayState, msg: Message, drawn: Bytes32)
    : (RelayState, Result<seq<Event>, ServeError>)
    requires msg.command != Command.Create
  {
    if msg.command == Command.Extend && !s.nextHop then
      var (s', done) := ExtendAt(CircOf(e, msg), e.net, s, msg, drawn);
      (s', if done.Ok? then Ok([ToPrevious(done.value.1)]) else Err(ServeError.NotExtended(done.error)))
    else
      var (s', act) := ForwardStep(CircOf(e, msg), s, msg);
      (s', match act
           case Forwarded(cell) => Ok([ToNext(cell)])
           case Reply(cell) => Ok([ToPrevious(cell)])
           case Quiet => Ok([])
           case Failed(error) => Err(RelayFailed(error)))
  }

  /** That of an exit. */
  function ExitHandles(e: Env, s: Exit.ExitState, msg: Message, dial: Exit.Dial)
    : (Exit.ExitState, Result<seq<Event>, ServeError>)
    requires msg.command != Command.Create
  {
    var (s', act) := Exit.ExitStep(CircOf(e, msg), s, msg, dial);
    (s', match act
         case Wrote(cell) => Ok([ToPrevious(cell)])
         case Reply(cell) => Ok([ToPrevious(cell)])
         case Quiet => Ok([])
         case Failed(error) => Err(ExitFailed(error)))
  }

  /** After EXTEND and EXTENDED, once the reply is out, a next hop that nobody reads gets a reader. */
  function Handle(e: Env, h: Handler, msg: Message, chance: Chance): (Handler, Result<seq<Event>, ServeError>)
    requires msg.command != Command.Create
  {
    match h
    case AtExit(s) =>
      var (s', r) := ExitHandles(e, s, msg, chance.dial);
      (AtExit(s'), r)
    case AtRelay(s, reading) =>
      var (s', r) := RelayHandles(e, s, msg, chance.drawn);
      if r.Err? then (AtRelay(s', reading), r)
      else if (msg.command == Command.Extend || msg.command == Command.Extended) && s'.nextHop && !reading then
        (AtRelay(s', true), Ok(r.value + [StartsReading(msg.circuit)]))
      else (AtRelay(s', reading), r)
  }

  function Fresh(e: Env, key: SessionKey): Handler {
    match e.node
    case RelayNode(role) => AtRelay(RelayState(role, Some(FreshPair(key)), false), false)
    case ExitNode => AtExit(Exit.ExitState(Some(Exit.ExitCrypto(FreshPair(key), [], [])), map[], []))
  }

  /** CREATE makes a circuit; anything else goes to the one it names. */
  function Dispatch(e: Env, circuits: Circuits, msg: Message, chance: Chance)
    : (Circuits, Result<seq<Event>, ServeError>)
  {
    if msg.command == Command.Create then
      match HandleCreate(e.net.suite, e.site, chance.drawn, msg)
      case Err(error) => (circuits, Err(ServeError.NotCreated(error)))
      case Ok(made) => (circuits[msg.circuit := Fresh(e, made.0)], Ok([ToPrevious(made.1)]))
    else if msg.circuit !in circuits then (circuits, Err(NoSuchCircuit))
    else
      var (h, r) := Handle(e, circuits[msg.circuit], msg, chance);
      (circuits[msg.circuit := h], r)
  }

  datatype Outcome = Outcome(circuits: Circuits, events: seq<Event>, error: Option<ServeError>)

  /** Each message comes with its chance. The first error ends the connection. */
  function ServeAll(e: Env, circuits: Circuits, msgs: seq<(Message, Chance)>): Outcome
    decreases |msgs|
  {
    if msgs == [] then Outcome(circuits, [], None) else
    var (circuits', r) := Dispatch(e, circuits, msgs[0].0, msgs[0].1);
    if r.Err? then Outcome(circuits', [], Some(r.error)) else
    var rest := ServeAll(e, circuits', msgs[1..]);
    rest.(events := r.value + rest.events)
  }

  /** The connection loop: a reply is written before the next message is read. */
  method HandleConnection(e: Env, circuits: Circuits, msgs: seq<(Message, Chance)>)
    returns (now: Circuits, events: seq<Event>, error: Option<ServeError>)
    ensures Outcome(now, events, error) == ServeAll(e, circuits, msgs)
  {
    hide Dispatch;
    now, events, error := circuits, [], None;
    var i := 0;
    while i < |msgs|
      invariant i <= |msgs| && error.None?
      invariant var rest := ServeAll(e, now, msgs[i..]);
                rest.(events := events + rest.events) == ServeAll(e, circuits, msgs)
    {
      var (next, r) := Dispatch(e, now, msgs[i].0, msgs[i].1);
      assert msgs[i..][1..] == msgs[i + 1..];
      now := next;
      if r.Err? {
        error := Some(r.error);
        assert events + [] == events;
        return;
      }
      Regroup(events, r.value, ServeAll(e, now, msgs[i + 1..]).events);
      events := events + r.value;
      i := i + 1;
    }
    assert events + [] == events;
  }

  /** Nothing after the first error is looked at. */
  lemma {:induction false} ErrorStops(e: Env, circuits: Circuits, msgs: seq<(Message, Chance)>,
                                      more: seq<(Message, Chance)>)
    requires ServeAll(e, circuits, msgs).error.Some?
    ensures ServeAll(e, circuits, msgs + more) == ServeAll(e, circuits, msgs)
    decreases |msgs|
  {
    hide Dispatch;
    assert (msgs + more)[0] == msgs[0] && (msgs + more)[1..] == msgs[1..] + more;
    var (circuits', r) := Dispatch(e, circuits, msgs[0].0, msgs[0].1);
    if r.Ok? {
      ErrorStops(e, circuits', msgs[1..], more);
    }
  }

  lemma {:induction false} HandlesItsOwn(e: Env, h: Handler, msg: Message, chance: Chance)
    requires msg.command != Command.Create
    ensures var r := Handle(e, h, msg, chance).1;
            r.Ok? ==> forall v :: v in r.value ==> CircuitOf(v) == msg.circuit
  {
    hide Layer, NtorServer, ReadExtend, Exit.Open;
  }

  /** A message touches its own circuit only, makes the relay act on that circuit only, and what comes of
      it depends on that circuit only. */
  lemma {:induction false} DispatchIsLocal(e: Env, circuits: Circuits, others: Circuits, msg: Message, chance: Chance)
    requires msg.circuit in circuits <==> msg.circuit in others
    requires msg.circuit in circuits ==> circuits[msg.circuit] == others[msg.circuit]
    ensures var (circuits', r) := Dispatch(e, circuits, msg, chance);
            && circuits' - {msg.circuit} == circuits - {msg.circuit}
            && (r.Ok? ==> forall v :: v in r.value ==> CircuitOf(v) == msg.circuit)
            && (var (others', r') := Dispatch(e, others, msg, chance);
                && r' == r && (msg.circuit in circuits' <==> msg.circuit in others')
                && (msg.circuit in circuits' ==> circuits'[msg.circuit] == others'[msg.circuit]))
  {
    hide Handle;
    if msg.command != Command.Create && msg.circuit in circuits {
      HandlesItsOwn(e, circuits[msg.circuit], msg, chance);
    }
  }

  /** Only CREATE makes a circuit, nothing takes one out of the table, and a message for a circuit that is not
      there is an error. */
  lemma {:induction false} OnlyCreateMakes(e: Env, circuits: Circuits, msg: Message, chance: Chance)
    ensures var (circuits', r) := Dispatch(e, circuits, msg, chance);
            && circuits'.Keys == circuits.Keys + (if msg.command == Command.Create && r.Ok? then {msg.circuit} else {})
            && (r == Err(NoSuchCircuit) <==> msg.command != Command.Create && msg.circuit !in circuits)
  {
    hide HandleCreate;
    if msg.command != Command.Create && msg.circuit in circuits {
      HandleKnows(e, circuits[msg.circuit], msg, chance);
    }
  }

  lemma {:induction false} HandleKnows(e: Env, h: Handler, msg: Message, chance: Chance)
    requires msg.command != Command.Create
    ensures Handle(e, h, msg, chance).1 != Err(NoSuchCircuit)
  {
    hide ExtendAt, ForwardStep, Exit.ExitStep;
  }

  function Only(msgs: seq<(Message, Chance)>, id: CircuitId): seq<(Message, Chance)> {
    if msgs == [] then []
    else if msgs[0].0.circuit == id then [msgs[0]] + Only(msgs[1..], id)
    else Only(msgs[1..], id)
  }

  function Concerning(events: seq<Event>, id: CircuitId): seq<Event> {
    if events == [] then []
    else if CircuitOf(events[0]) == id then [events[0]] + Concerning(events[1..], id)
    else Concerning(events[1..], id)
  }

  lemma {:induction false} ConcerningAppends(first: seq<Event>, rest: seq<Event>, c: CircuitId, id: CircuitId)
    requires forall v :: v in first ==> CircuitOf(v) == c
    ensures Concerning(first + rest, id) == (if c == id then first else []) + Concerning(rest, id)
  {
    if first == [] {
      assert first + rest == rest;
    } else {
      assert (first + rest)[0] == first[0] && (first + rest)[1..] == first[1..] + rest;
      ConcerningAppends(first[1..], rest, c, id);
      assert [first[0]] + first[1..] == first;
    }
  }

  /** Circuits do not disturb each other: as long as nothing fails, what becomes of a circuit and what is
      done for it are what its own messages alone would have made of it. */
  lemma {:induction false} CircuitsAreIsolated(e: Env, circuits: Circuits, others: Circuits,
                                               msgs: seq<(Message, Chance)>, id: CircuitId)
    requires ServeAll(e, circuits, msgs).error.None?
    requires id in circuits <==> id in others
    requires id in circuits ==> circuits[id] == others[id]
    ensures var all, alone := ServeAll(e, circuits, msgs), ServeAll(e, others, Only(msgs, id));
            && alone.error.None? && Concerning(all.events, id) == alone.events
            && (id in all.circuits <==> id in alone.circuits)
            && (id in all.circuits ==> all.circuits[id] == alone.circuits[id])
    decreases |msgs|
  {
    hide Dispatch;
    if msgs != [] {
      var (msg, chance) := msgs[0];
      var (circuits', r) := Dispatch(e, circuits, msg, chance);
      if msg.circuit == id {
        DispatchIsLocal(e, circuits, others, msg, chance);
        var (others', r') := Dispatch(e, others, msg, chance);
        CircuitsAreIsolated(e, circuits', others', msgs[1..], id);
        assert Only(msgs, id)[1..] == Only(msgs[1..], id);
      } else {
        DispatchIsLocal(e, circuits, circuits, msg, chance);
        assert id in circuits' <==> id in circuits - {msg.circuit};
        assert id in circuits' - {msg.circuit} ==> circuits'[id] == (circuits' - {msg.circuit})[id];
        CircuitsAreIsolated(e, circuits', others, msgs[1..], id);
      }
      ConcerningAppends(r.value, ServeAll(e, circuits', msgs[1..]).events, msg.circuit, id);
    }
  }

  /** Every next hop is read from. */
  ghost predicate AllRead(circuits: Circuits) {
    forall id {:trigger circuits[id]} :: id in circuits && circuits[id].AtRelay? ==>
      (circuits[id].relay.nextHop ==> circuits[id].reading)
  }

  lemma {:induction false} ExtendsOnce(e: Env, s: RelayState, msg: Message, drawn: Bytes32)
    requires msg.command != Command.Create
    ensures var (s', r) := RelayHandles(e, s, msg, drawn);
            r.Ok? && s'.nextHop && !s.nextHop ==>
              msg.command == Command.Extend && r.value != [] && r.value[0].ToPrevious?
  {
    hide Layer, Dialled;
  }

  /** Whoever gets a next hop starts to read from it in the same turn, after the reply to the client is
      out, and only once: so no backward cell can come before the EXTENDED, and none is left unread. */
  lemma {:induction false} NextHopIsRead(e: Env, circuits: Circuits, msg: Message, chance: Chance)
    requires AllRead(circuits)
    ensures var (circuits', r) := Dispatch(e, circuits, msg, chance);
            r.Ok? ==>
              && AllRead(circuits')
              && (forall i {:trigger r.value[i]} :: 0 <= i < |r.value| && r.value[i].StartsReading? ==>
                    && i == |r.value| - 1 && 0 < i && r.value[0].ToPrevious?
                    && msg.circuit in circuits && circuits[msg.circuit].AtRelay? && !circuits[msg.circuit].reading)
  {
    hide RelayHandles, ExitHandles;
    if msg.command != Command.Create && msg.circuit in circuits {
      match circuits[msg.circuit] {
        case AtRelay(s, reading) =>
          ExtendsOnce(e, s, msg, chance.drawn);
          NothingElseReads(e, s, msg, chance);
        case AtExit(s) =>
          ExitNeverReads(e, s, msg, chance);
      }
    }
  }

  lemma {:induction false} NothingElseReads(e: Env, s: RelayState, msg: Message, chance: Chance)
    requires msg.command != Command.Create
    ensures var r := RelayHandles(e, s, msg, chance.drawn).1;
            r.Ok? ==>
              |r.value| <= 1 && forall i {:trigger r.value[i]} :: 0 <= i < |r.value| ==> !r.value[i].StartsReading?
  {
    hide Layer, ExtendAt;
  }

  lemma {:induction false} ExitNeverReads(e: Env, s: Exit.ExitState, msg: Message, chance: Chance)
    requires msg.command != Command.Create
    ensures var r := ExitHandles(e, s, msg, chance.dial).1;
            r.Ok? ==>
              |r.value| <= 1 && forall i {:trigger r.value[i]} :: 0 <= i < |r.value| ==> !r.value[i].StartsReading?
  {
    hide Exit.Open, Exit.Serve, Exit.Emit;
  }

  /** The handler object of an entry or middle relay, whatever the message: CREATE and EXTEND as well. */
  method HandleAtRelay(h: RelayHandler, e: Env, msg: Message, drawn: Bytes32)
    returns (r: Result<seq<Event>, ServeError>)
    requires h.Valid() && h.x == CircOf(e, msg)
    modifies h, h.cipher
    ensures h.Valid()
    ensures msg.command != Command.Create ==> (h.State(), r) == RelayHandles(e, old(h.State()), msg, drawn)
    ensures msg.command == Command.Create ==>
              match HandleCreate(e.net.suite, e.site, drawn, msg)
              case Ok(made) =>
                h.State() == old(h.State()).(cipher := Some(FreshPair(made.0))) && r == Ok([ToPrevious(made.1)])
              case Err(error) => h.State() == old(h.State()) && r == Err(ServeError.NotCreated(error))
  {
    if msg.command == Command.Create {
      var made := AcceptCreate(h, e.net.suite, e.site, drawn, msg);
      r := if made.Ok? then Ok([ToPrevious(made.value)]) else Err(ServeError.NotCreated(made.error));
    } else if msg.command == Command.Extend && !h.nextHop {
      var read := PeelExtend(h, e.net.text, msg);
      if read.Err? {
        return Err(ServeError.NotExtended(read.error));
      }
      var dialled := Dialled(h.x, e.net, read.value, drawn);
      if dialled.Err? {
        return Err(ServeError.NotExtended(dialled.error));
      }
      var answer := WrapExtended(h, dialled.value.1);
      r := if answer.Ok? then Ok([ToPrevious(answer.value)]) else Err(ServeError.NotExtended(answer.error));
    } else {
      var action := h.HandleMessage(msg);
      match action {
        case Forwarded(cell) => r := Ok([ToNext(cell)]);
        case Reply(cell) => r := Ok([ToPrevious(cell)]);
        case Quiet => r := Ok([]);
        case Failed(error) => r := Err(RelayFailed(error));
      }
    }
  }

  /** The handler object of an exit, whatever the message. */
  method HandleAtExit(h: Exit.ExitHandler, e: Env, msg: Message, chance: Chance)
    returns (r: Result<seq<Event>, ServeError>)
    requires h.Valid() && h.x == CircOf(e, msg)
    modifies h.Footprint()
    ensures h.Valid()
    ensures msg.command != Command.Create ==> (h.State(), r) == ExitHandles(e, old(h.State()), msg, chance.dial)
    ensures msg.command == Command.Create ==>
              match HandleCreate(e.net.suite, e.site, chance.drawn, msg)
              case Ok(made) =>
                && h.State() == old(h.State()).(crypto := Some(Exit.ExitCrypto(FreshPair(made.0), [], [])))
                && r == Ok([ToPrevious(made.1)])
              case Err(error) => h.State() == old(h.State()) && r == Err(ServeError.NotCreated(error))
  {
    if msg.command == Command.Create {
      match HandleCreate(e.net.suite, e.site, chance.drawn, msg) {
        case Ok(made) =>
          h.Activate(made.0);
          r := Ok([ToPrevious(made.1)]);
        case Err(error) => r := Err(ServeError.NotCreated(error));
      }
    } else {
      var action := h.HandleMessage(msg, chance.dial);
      match action {
        case Wrote(cell) => r := Ok([ToPrevious(cell)]);
        case Reply(cell) => r := Ok([ToPrevious(cell)]);
        case Quiet => r := Ok([]);
        case Failed(error) => r := Err(ExitFailed(error));
      }
    }
  }
}
