/** One client, its circuit of relays and an exit, joined by FIFO wires, as a state machine.
    A step is one thing done under one lock; all outside choices are in the action. */
module Network {
  import opened Common
  import opened Cells
  import opened Crypto
  import opened Pipeline
  import opened Relay
  import opened Exit
  import opened Client

  /** How far the handler of one SOCKS connection has got. */
  datatype Phase = Registered | Waiting | Relaying | Ending | Ended | Gone

  /** One SOCKS connection. `read` and `written` are all it ever read from and wrote to its client,
      `pending` the part of the last read not yet sent, `inbox` all its channel was ever given and
      `cursor` how much of that it has taken. The last two fields are history: how many cells the exit had
      sealed and how many stream tasks it had started when this stream was opened. */
  datatype Local = Local(
    destination: seq<byte>, phase: Phase, read: seq<byte>, pending: seq<byte>,
    inbox: seq<Plain>, cursor: nat, written: seq<byte>, sealedBefore: nat, tasksBefore: nat)

  function Opening(destination: seq<byte>, sealed: nat, tasks: nat): Local {
    Local(destination, Registered, [], [], [], 0, [], sealed, tasks)
  }

  /** `up[i]` leads into hop `i`; `down[j]` is written by the hop `j` places before the exit, so
      `down[|down| - 1]` leads to the client. `reply` is a cell the exit has sealed and not yet
      written. The last seven fields are history that no step reads: what was ever sealed and accepted each
      way, how many streams were opened, whether the exit sealed a cell while one waited, and which of the
      accepted cells were BEGINs whose destination answered. */
  datatype World = World(
    client: ClientState,
    local: map<StreamId, Local>,
    relays: seq<RelayState>,
    exit: ExitState,
    reply: Option<Message>,
    up: seq<seq<Message>>,
    down: seq<seq<Message>>,
    sent: seq<Plain>,
    accepted: seq<Plain>,
    emitted: seq<Plain>,
    delivered: seq<Plain>,
    streams: nat,
    raced: bool,
    begun: seq<nat>)

  const READ_BUFFER: nat := 4096

  datatype Action =
    | OpenStream(destination: seq<byte>)
    | SendBegin(stream: StreamId)
    | GiveUp(stream: StreamId)
    | ReadSocks(stream: StreamId, bytes: seq<byte>)
    | SendChunk(stream: StreamId)
    | TakeInbox(stream: StreamId)
    | SendEnd(stream: StreamId)
    | Unregister(stream: StreamId)
    | SendPadding(bytes: seq<byte>)
    | RelayUp(hop: nat)
    | ExitTake(dial: Dial)
    | WriteReply
    | FetchBytes(task: nat, bytes: seq<byte>)
    | TaskChunk(task: nat)
    | TaskEnd(task: nat, text: seq<byte>)
    | TaskWrite(task: nat, count: nat, alive: bool)
    | RelayDown(hop: nat)
    | TearDown(wire: nat)
    | ClientTake
    | LoseEntry

  /** The shape every circuit of `n` hops keeps. */
  predicate Shape(w: World) {
    var n := |w.relays| + 1;
    && |w.client.ciphers| == |w.up| == |w.down| == n
    && (forall i {:trigger w.relays[i]} :: 0 <= i < |w.relays| ==> w.relays[i].cipher.Some? && w.relays[i].nextHop)
    && w.exit.crypto.Some?
  }

  function Put(wires: seq<seq<Message>>, j: nat, m: Message): (r: seq<seq<Message>>)
    requires j < |wires|
    ensures |r| == |wires|
  {
    wires[j := wires[j] + [m]]
  }

  function Take(wires: seq<seq<Message>>, j: nat): (r: seq<seq<Message>>)
    requires j < |wires| && wires[j] != []
    ensures |r| == |wires|
  {
    wires[j := wires[j][1..]]
  }

  /** Seal a cell and write it to the entry relay. */
  function ClientSends(x: Circ, w: World, p: Plain): World
    requires Shape(w)
  {
    var (c, cell) := ClientSend(x, w.client, p);
    w.(client := c, up := if cell.Ok? then Put(w.up, 0, cell.value) else w.up, sent := w.sent + [p])
  }

  predicate InPhase(w: World, s: StreamId, phase: Phase) {
    s in w.local && w.local[s].phase == phase
  }

  predicate CanRelayUp(x: Circ, w: World, i: nat)
    requires Shape(w)
  {
    && i < |w.relays| && w.up[i] != [] && Established(w.relays[i], w.up[i][0])
    && (var act := ForwardStep(x, w.relays[i], w.up[i][0]).1; act.Forwarded? || act.Quiet?)
  }

  predicate CanRelayDown(x: Circ, w: World, i: nat)
    requires Shape(w)
  {
    && i < |w.relays| && w.down[|w.relays| - 1 - i] != []
    && BackwardStep(x, w.relays[i], w.down[|w.relays| - 1 - i][0]).1.Reply?
  }

  predicate CanExitTake(x: Circ, w: World, dial: Dial)
    requires Shape(w)
  {
    && w.reply.None?
    && (var wire := w.up[|w.up| - 1];
        && wire != [] && wire[0].command != Create
        && !ExitStep(x, w.exit, wire[0], dial).1.Failed?)
    && (dial.Refused? ==> |Ascii("Connection failed: ") + dial.reason| <= MAX_PAYLOAD_SIZE)
  }

  /** When an action can happen. A cell that would make a relay or the exit stop is never taken;
      `RelaysAcceptAll` and `ExitAcceptsAll` in module `Runs` show that this excludes nothing. */
  predicate Enabled(x: Circ, w: World, a: Action) {
    && Shape(w)
    && match a
       case OpenStream(destination) => |destination| < MAX_PAYLOAD_SIZE
       case SendBegin(s) => InPhase(w, s, Registered)
       case GiveUp(s) => InPhase(w, s, Waiting) || (InPhase(w, s, Relaying))
       case ReadSocks(s, bytes) =>
         InPhase(w, s, Relaying) && w.local[s].pending == [] && 0 < |bytes| <= READ_BUFFER
       case SendChunk(s) => InPhase(w, s, Relaying) && w.local[s].pending != []
       case TakeInbox(s) =>
         && s in w.local && w.local[s].cursor < |w.local[s].inbox|
         && (w.local[s].phase == Waiting || (w.local[s].phase == Relaying && w.local[s].pending == []))
       case SendEnd(s) => InPhase(w, s, Ending)
       case Unregister(s) => InPhase(w, s, Ended)
       case SendPadding(bytes) => |bytes| < MAX_PAYLOAD_SIZE
       case RelayUp(i) => CanRelayUp(x, w, i)
       case ExitTake(dial) => CanExitTake(x, w, dial)
       case WriteReply => w.reply.Some?
       case FetchBytes(t, bytes) =>
         t < |w.exit.tasks| && w.exit.tasks[t].live && w.exit.tasks[t].outbox == [] && 0 < |bytes| <= READ_BUFFER
       case TaskChunk(t) => t < |w.exit.tasks| && w.exit.tasks[t].live && w.exit.tasks[t].outbox != []
       case TaskEnd(t, text) =>
         t < |w.exit.tasks| && w.exit.tasks[t].live && w.exit.tasks[t].outbox == [] && |text| <= MAX_PAYLOAD_SIZE
       case TaskWrite(t, count, alive) =>
         && t < |w.exit.tasks| && w.exit.tasks[t].live && w.exit.tasks[t].outbox == []
         && count <= |w.exit.tasks[t].queue|
       case RelayDown(i) => CanRelayDown(x, w, i)
       case TearDown(j) => j < |w.down|
       case ClientTake => w.client.status != Closed && w.down[|w.down| - 1] != []
       case LoseEntry => true
  }

  function Apply(x: Circ, w: World, a: Action): World
    requires Enabled(x, w, a)
  {
    match a
    case OpenStream(destination) =>
      var s := w.client.nextStream;
      w.(client := w.client.(nextStream := NextStreamId(s), senders := w.client.senders + {s}),
         local := w.local[s := Opening(destination, |w.emitted|, |w.exit.tasks|)],
         streams := w.streams + 1)
    case SendBegin(s) =>
      ClientSends(x, w, Plain(s, Begin, w.local[s].destination + [0])).
      (local := w.local[s := w.local[s].(phase := Waiting)])
    case GiveUp(s) => w.(local := w.local[s := w.local[s].(phase := Ending)])
    case ReadSocks(s, bytes) =>
      w.(local := w.local[s := w.local[s].(read := w.local[s].read + bytes, pending := bytes)])
    case SendChunk(s) =>
      var l := w.local[s];
      var n := Min(|l.pending|, MAX_PAYLOAD_SIZE);
      ClientSends(x, w, Plain(s, Data, l.pending[..n])).
      (local := w.local[s := l.(pending := l.pending[n..])])
    case TakeInbox(s) => w.(local := w.local[s := TakeCell(w.local[s])])
    case SendEnd(s) =>
      ClientSends(x, w, Plain(s, End, [])).(local := w.local[s := w.local[s].(phase := Ended)])
    case Unregister(s) =>
      w.(client := w.client.(senders := w.client.senders - {s}),
         local := w.local[s := w.local[s].(phase := Gone)])
    case SendPadding(bytes) => w.(up := Put(w.up, 0, CircuitMessage(x.id, Padding, bytes)))
    case RelayUp(i) => RelayTakes(x, w, i)
    case ExitTake(dial) => ExitTakes(x, w, dial)
    case WriteReply => w.(down := Put(w.down, 0, w.reply.value), reply := None)
    case FetchBytes(t, bytes) => w.(exit := Fetch(w.exit, t, bytes))
    case TaskChunk(t) =>
      var (s, p, cell) := EmitChunk(x, w.exit, t);
      TaskWrites(w, s, p, cell)
    case TaskEnd(t, text) =>
      var (s, p, cell) := EmitEnd(x, w.exit, t, text);
      TaskWrites(w, s, p, cell)
    case TaskWrite(t, count, alive) => w.(exit := WriteOut(w.exit, t, count, alive))
    case RelayDown(i) => RelayReturns(x, w, i)
    case TearDown(j) => w.(down := Put(w.down, j, CircuitMessage(x.id, Destroy, [])))
    case ClientTake => ClientTakes(x, w)
    case LoseEntry => w.(client := CloseClient(w.client))
  }

  /** The handler of a SOCKS connection takes one cell off its channel. */
  function TakeCell(l: Local): Local
    requires l.cursor < |l.inbox|
  {
    var m := l.inbox[l.cursor];
    var l' := l.(cursor := l.cursor + 1);
    if l.phase == Waiting then l'.(phase := if m.command == Connected then Relaying else Ending)
    else match m.command
         case Data => l'.(written := l.written + m.data)
         case End => l'.(phase := Ending)
         case _ => l'
  }

  function RelayTakes(x: Circ, w: World, i: nat): World
    requires Shape(w) && CanRelayUp(x, w, i)
  {
    var (s, act) := ForwardStep(x, w.relays[i], w.up[i][0]);
    w.(relays := w.relays[i := s],
       up := if act.Forwarded? then Put(Take(w.up, i), i + 1, act.cell) else Take(w.up, i))
  }

  function RelayReturns(x: Circ, w: World, i: nat): World
    requires Shape(w) && CanRelayDown(x, w, i)
  {
    var j := |w.relays| - 1 - i;
    var (s, act) := BackwardStep(x, w.relays[i], w.down[j][0]);
    w.(relays := w.relays[i := s], down := Put(Take(w.down, j), j + 1, act.cell))
  }

  function ExitTakes(x: Circ, w: World, dial: Dial): World
    requires Shape(w) && w.up[|w.up| - 1] != [] && w.up[|w.up| - 1][0].command != Create
  {
    var msg := w.up[|w.up| - 1][0];
    var (s, act) := ExitStep(x, w.exit, msg, dial);
    var verified := Open(x, w.exit.crypto.value, msg).1;
    var answer := ExitAnswer(x, w.exit, msg, dial);
    var w1 := w.(exit := s, up := Take(w.up, |w.up| - 1));
    if !IsTraffic(msg) || verified.None? then w1 else
    w1.(accepted := w.accepted + [verified.value],
        begun := if verified.value.command == Begin && dial.Connects? then w.begun + [|w.accepted|] else w.begun,
        emitted := if answer.Some? then w.emitted + [answer.value] else w.emitted,
        down := if act.Wrote? then Put(w.down, 0, act.cell) else w.down,
        reply := if act.Reply? then Some(act.cell) else None)
  }

  /** A stream task seals and writes a cell with the crypto lock held. */
  function TaskWrites(w: World, s: ExitState, p: Plain, cell: Message): World
    requires Shape(w)
  {
    w.(exit := s, down := Put(w.down, 0, cell), emitted := w.emitted + [p], raced := w.raced || w.reply.Some?)
  }

  function ClientTakes(x: Circ, w: World): World
    requires Shape(w) && w.down[|w.down| - 1] != []
  {
    var last := |w.down| - 1;
    var (c, event) := ClientReceive(x, w.client, w.down[last][0]);
    var w1 := w.(client := c, down := Take(w.down, last));
    match event
    case Delivered(p) =>
      w1.(delivered := w.delivered + [p],
          local := if p.stream in w.local
                   then w.local[p.stream := w.local[p.stream].(inbox := w.local[p.stream].inbox + [p])]
                   else w.local)
    case Unclaimed(p) => w1.(delivered := w.delivered + [p])
    case _ => w1
  }

  /** A run of actions; `None` if one was not enabled. */
  function Run(x: Circ, w: World, actions: seq<Action>): Option<World>
    decreases |actions|
  {
    if actions == [] then Some(w)
    else if !Enabled(x, w, actions[0]) then None
    else Run(x, Apply(x, w, actions[0]), actions[1..])
  }

  function Repeat(a: Action, n: nat): seq<Action> {
    if n == 0 then [] else [a] + Repeat(a, n - 1)
  }

  /** A circuit just built: client and relays hold the same cipher pairs, all digests are fresh. */
  function Built(pairs: seq<Pair>): World
    requires |pairs| >= 2
  {
    var n := |pairs|;
    World(
      FreshClient(pairs), map[],
      seq(n - 1, i requires 0 <= i < n - 1 => RelayState(if i == 0 then Entry else Middle, Some(pairs[i]), true)),
      ExitState(Some(ExitCrypto(pairs[n - 1], [], [])), map[], []),
      None, seq(n, _ => []), seq(n, _ => []), [], [], [], [], 0, false, [])
  }
}
