/** The last hop: it takes the last layer off, checks the digest, and serves one task per stream. */
module Exit {
  import opened Common
  import opened Cells
  import opened Crypto
  import opened Pipeline
  import Relay

  /** The cipher pair and what both digests have absorbed. */
  datatype ExitCrypto = ExitCrypto(pair: Pair, forward: seq<byte>, backward: seq<byte>)

  /** A stream task between its two ends. `queue` is what its control channel holds, `outbox` what
      it has read from the destination and not yet put in cells; `written` and `fetched` are all it
      ever wrote to and read from the destination. */
  datatype Task = Task(
    stream: StreamId, live: bool, queue: seq<byte>, written: seq<byte>, outbox: seq<byte>, fetched: seq<byte>)

  datatype ExitStream = ExitStream(destination: seq<byte>, task: nat)

  datatype ExitState = ExitState(
    crypto: Option<ExitCrypto>, streams: map<StreamId, ExitStream>, tasks: seq<Task>)

  /** What connecting to a destination came to. */
  datatype Dial = Connects | Refused(reason: seq<byte>) | NotUtf8

  datatype ExitError = NoCrypto | DigestMismatch | BadDestination | Unexpected(command: Command)

  datatype ExitAction =
    | Wrote(cell: Message)   // written to the previous hop with the crypto lock held
    | Reply(cell: Message)   // sealed under the lock, returned, and written later
    | Quiet
    | Failed(error: ExitError)

  const DESTINATION_CLOSED: seq<byte> := Ascii("Destination closed")
  const STREAM_NOT_FOUND: seq<byte> := Ascii("Stream not found")

  function TrimNuls(s: seq<byte>): seq<byte> {
    if s != [] && s[|s| - 1] == 0 then TrimNuls(s[..|s| - 1]) else s
  }

  /** Take the last layer off and run the digest over the result; `None` on a mismatch. */
  function Open(x: Circ, c: ExitCrypto, msg: Message): (ExitCrypto, Option<Plain>) {
    var data := Layer(x.mask, c.pair.forward, msg.data);
    var absorbed := c.forward + Frame(msg.stream, msg.command, data);
    (ExitCrypto(c.pair.(forward := Skip(c.pair.forward, |msg.data|)), absorbed, c.backward),
     if x.hash(absorbed) == msg.digest then Some(Plain(msg.stream, msg.command, data)) else None)
  }

  /** Seal one backward cell. */
  function Emit(x: Circ, c: ExitCrypto, p: Plain): (ExitCrypto, Message) {
    (ExitCrypto(c.pair.(backward := Skip(c.pair.backward, |p.data|)), c.forward,
                c.backward + Frame(p.stream, p.command, p.data)),
     Seal(x, [c.pair.backward], c.backward, p))
  }

  function HasLiveTask(s: ExitState, stream: StreamId): bool {
    stream in s.streams && s.streams[stream].task < |s.tasks| && s.tasks[s.streams[stream].task].live
  }

  function Queue(s: ExitState, stream: StreamId, data: seq<byte>): ExitState
    requires HasLiveTask(s, stream)
  {
    var t := s.streams[stream].task;
    s.(tasks := s.tasks[t := s.tasks[t].(queue := s.tasks[t].queue + data)])
  }

  /** The cell, if any, that a verified message makes the exit emit. */
  function Answer(s: ExitState, p: Plain, dial: Dial): Option<Plain> {
    match p.command
    case Begin =>
      (match dial
       case Connects => Some(Plain(p.stream, Connected, []))
       case Refused(reason) => Some(Plain(p.stream, End, Ascii("Connection failed: ") + reason))
       case NotUtf8 => None)
    case Data =>
      if HasLiveTask(s, p.stream) then None
      else if p.stream in s.streams then Some(Plain(p.stream, End, DESTINATION_CLOSED))
      else Some(Plain(p.stream, End, STREAM_NOT_FOUND))
    case _ => Some(Plain(p.stream, End, []))
  }

  /** What a verified message does to the streams. */
  function Serve(s: ExitState, p: Plain, dial: Dial): ExitState {
    match p.command
    case Begin =>
      if !dial.Connects? then s else
      s.(streams := s.streams[p.stream := ExitStream(TrimNuls(p.data), |s.tasks|)],
         tasks := s.tasks + [Task(p.stream, true, [], [], [], [])])
    case Data => if HasLiveTask(s, p.stream) then Queue(s, p.stream, p.data) else s
    case _ => s.(streams := s.streams - {p.stream})
  }

  /** One message from the previous hop, on an established circuit. */
  function ExitStep(x: Circ, s: ExitState, msg: Message, dial: Dial): (ExitState, ExitAction)
    requires msg.command != Create
  {
    match msg.command
    case Begin | Data | End =>
      if s.crypto.None? then (s, Failed(NoCrypto)) else
      var (unsealed, verified) := Open(x, s.crypto.value, msg);
      var s1 := s.(crypto := Some(unsealed));
      if verified.None? then (s1, Failed(DigestMismatch)) else
      var p := verified.value;
      if p.command == Begin && dial.NotUtf8? then (s1, Failed(BadDestination)) else
      var s2 := Serve(s1, p, dial);
      var answer := Answer(s1, p, dial);
      if answer.None? then (s2, Quiet) else
      var (sealed, cell) := Emit(x, unsealed, answer.value);
      (s2.(crypto := Some(sealed)), if answer.value.command == Connected then Wrote(cell) else Reply(cell))
    case Destroy => (s.(crypto := None, streams := map[]), Quiet)
    case Padding => (s, Quiet)
    case _ => (s, Failed(Unexpected(msg.command)))
  }

  /** The cell, if any, that a message makes the exit emit. */
  function ExitAnswer(x: Circ, s: ExitState, msg: Message, dial: Dial): Option<Plain>
    requires s.crypto.Some?
  {
    var (unsealed, verified) := Open(x, s.crypto.value, msg);
    if verified.None? then None else Answer(s.(crypto := Some(unsealed)), verified.value, dial)
  }

  /** What an accepted stream cell does: one opening, one service, at most one sealing. */
  lemma {:induction false} ExitEffect(x: Circ, s: ExitState, msg: Message, dial: Dial)
    requires s.crypto.Some? && (msg.command == Begin || msg.command == Data || msg.command == End)
    requires !ExitStep(x, s, msg, dial).1.Failed?
    ensures var (s', act) := ExitStep(x, s, msg, dial);
            var (unsealed, verified) := Open(x, s.crypto.value, msg);
            var answer := ExitAnswer(x, s, msg, dial);
            && verified.Some?
            && s'.crypto == Some(if answer.Some? then Emit(x, unsealed, answer.value).0 else unsealed)
            && s'.streams == Serve(s, verified.value, dial).streams
            && s'.tasks == Serve(s, verified.value, dial).tasks
            && (answer.None? ==> act.Quiet?)
            && (answer.Some? ==> (act.Wrote? || act.Reply?) && act.cell == Emit(x, unsealed, answer.value).1)
            && (act.Wrote? <==> answer.Some? && answer.value.command == Connected)
  {
  }

  /** A live task reads from its destination once its last read has gone out. */
  function Fetch(s: ExitState, t: nat, bytes: seq<byte>): ExitState
    requires t < |s.tasks|
  {
    s.(tasks := s.tasks[t := s.tasks[t].(outbox := bytes, fetched := s.tasks[t].fetched + bytes)])
  }

  /** A live task puts the next chunk of its read in a cell. */
  function EmitChunk(x: Circ, s: ExitState, t: nat): (ExitState, Plain, Message)
    requires t < |s.tasks| && s.crypto.Some?
  {
    var task := s.tasks[t];
    var n := Min(|task.outbox|, MAX_PAYLOAD_SIZE);
    var p := Plain(task.stream, Data, task.outbox[..n]);
    var (sealed, cell) := Emit(x, s.crypto.value, p);
    (s.(crypto := Some(sealed), tasks := s.tasks[t := task.(outbox := task.outbox[n..])]), p, cell)
  }

  /** The destination closed (empty text) or failed: one END, and it is over. */
  function EmitEnd(x: Circ, s: ExitState, t: nat, text: seq<byte>): (ExitState, Plain, Message)
    requires t < |s.tasks| && s.crypto.Some?
  {
    var p := Plain(s.tasks[t].stream, End, text);
    var (sealed, cell) := Emit(x, s.crypto.value, p);
    (s.(crypto := Some(sealed), tasks := s.tasks[t := s.tasks[t].(live := false)]), p, cell)
  }

  /** A task writes some of its queue to the destination, and stops if that failed part way. */
  function WriteOut(s: ExitState, t: nat, n: nat, live: bool): ExitState
    requires t < |s.tasks| && n <= |s.tasks[t].queue|
  {
    var task := s.tasks[t];
    s.(tasks := s.tasks[t := task.(queue := task.queue[n..], written := task.written + task.queue[..n],
                                   live := task.live && live)])
  }

  /** The combined crypto state behind the exit's lock. */
  class ExitCryptoState {
    const x: Circ
    const cipher: CipherPair
    const forwardDigest: RunningDigest
    const backwardDigest: RunningDigest
    ghost const Repr: set<object>

    ghost predicate Valid() {
      && Repr == {cipher, forwardDigest, backwardDigest}
      && forwardDigest != backwardDigest
      && cipher.mask == x.mask && forwardDigest.hash == x.hash && backwardDigest.hash == x.hash
    }

    function Value(): ExitCrypto
      reads cipher, forwardDigest, backwardDigest
    {
      ExitCrypto(cipher.Value(), forwardDigest.absorbed, backwardDigest.absorbed)
    }

    constructor (x: Circ, key: SessionKey)
      ensures Valid() && fresh(Repr) && this.x == x
      ensures Value() == ExitCrypto(FreshPair(key), [], [])
    {
      this.x := x;
      var c := new CipherPair(x.mask, key);
      var f := new RunningDigest(x.hash);
      var b := new RunningDigest(x.hash);
      cipher, forwardDigest, backwardDigest := c, f, b;
      Repr := {c, f, b};
    }

    method OpenCell(msg: Message) returns (p: Option<Plain>)
      requires Valid()
      modifies Repr
      ensures (Value(), p) == Open(x, old(Value()), msg)
    {
      var decrypted := Relay.ToArray(msg.data);
      cipher.ApplyForward(decrypted);
      var ok := forwardDigest.Verify(msg.stream, msg.command, decrypted[..], msg.digest);
      p := if ok then Some(Plain(msg.stream, msg.command, decrypted[..])) else None;
    }

    method SealCell(p: Plain) returns (cell: Message)
      requires Valid()
      modifies Repr
      ensures (Value(), cell) == Emit(x, old(Value()), p)
    {
      var tag := backwardDigest.Update(p.stream, p.command, p.data);
      var encrypted := Relay.ToArray(p.data);
      ghost var c := cipher.backward;
      cipher.ApplyBackward(encrypted);
      assert [c][1..] == [];
      assert encrypted[..] == Through(x.mask, [c], p.data);
      cell := Message(x.id, p.stream, p.command, encrypted[..], tag);
    }
  }

  class ExitHandler {
    const x: Circ
    var shared: ExitCryptoState?
    var streams: map<StreamId, ExitStream>
    var tasks: seq<Task>
    var written: seq<Message>  // what this hop wrote to the previous one

    ghost predicate Valid()
      reads this, shared
    {
      shared != null ==> shared.Valid() && shared.x == x && this !in shared.Repr
    }

    ghost function Footprint(): set<object>
      reads this
    {
      {this} + if shared == null then {} else {shared} + shared.Repr
    }

    function State(): ExitState
      reads this, if shared == null then {} else {shared, shared.cipher, shared.forwardDigest, shared.backwardDigest}
    {
      ExitState(if shared == null then None else Some(shared.Value()), streams, tasks)
    }

    constructor (x: Circ)
      ensures Valid() && this.x == x && State() == ExitState(None, map[], []) && written == []
    {
      this.x := x;
      shared := null;
      streams := map[];
      tasks := [];
      written := [];
    }

    /** A session key was agreed: a fresh cipher pair and fresh digests. */
    method Activate(key: SessionKey)
      modifies this`shared
      ensures Valid() && State() == old(State()).(crypto := Some(ExitCrypto(FreshPair(key), [], [])))
    {
      shared := new ExitCryptoState(x, key);
    }

    method HandleMessage(msg: Message, dial: Dial) returns (action: ExitAction)
      requires Valid() && msg.command != Create
      modifies Footprint()
      ensures Valid() && (State(), action) == ExitStep(x, old(State()), msg, dial)
      ensures written == if action.Wrote? then old(written) + [action.cell] else old(written)
    {
      match msg.command {
        case Begin => action := HandleBegin(msg, dial);
        case Data => action := HandleData(msg);
        case End => action := HandleEnd(msg);
        case Destroy =>
          shared := null;
          streams := map[];
          action := Quiet;
        case Padding => action := Quiet;
        case _ => action := Failed(Unexpected(msg.command));
      }
    }

    method HandleBegin(msg: Message, dial: Dial) returns (action: ExitAction)
      requires Valid() && msg.command == Begin
      modifies Footprint()
      ensures Valid() && (State(), action) == ExitStep(x, old(State()), msg, dial)
      ensures written == if action.Wrote? then old(written) + [action.cell] else old(written)
    {
      if shared == null {
        return Failed(NoCrypto);
      }
      var verified := shared.OpenCell(msg);
      if verified.None? {
        return Failed(DigestMismatch);
      }
      var p := verified.value;
      match dial {
        case NotUtf8 => action := Failed(BadDestination);
        case Connects =>
          var cell := shared.SealCell(Plain(p.stream, Connected, []));
          written := written + [cell];
          streams := streams[p.stream := ExitStream(TrimNuls(p.data), |tasks|)];
          tasks := tasks + [Task(p.stream, true, [], [], [], [])];
          action := Wrote(cell);
        case Refused(reason) =>
          var cell := shared.SealCell(Plain(p.stream, End, Ascii("Connection failed: ") + reason));
          action := Reply(cell);
      }
    }

    method HandleData(msg: Message) returns (action: ExitAction)
      requires Valid() && msg.command == Data
      modifies Footprint()
      ensures Valid() && written == old(written)
      ensures forall dial :: (State(), action) == ExitStep(x, old(State()), msg, dial)
    {
      if shared == null {
        return Failed(NoCrypto);
      }
      var verified := shared.OpenCell(msg);
      if verified.None? {
        return Failed(DigestMismatch);
      }
      var p := verified.value;
      if p.stream in streams {
        var t := streams[p.stream].task;
        if t < |tasks| && tasks[t].live {
          tasks := tasks[t := tasks[t].(queue := tasks[t].queue + p.data)];
          action := Quiet;
        } else {
          var cell := shared.SealCell(Plain(p.stream, End, DESTINATION_CLOSED));
          action := Reply(cell);
        }
      } else {
        var cell := shared.SealCell(Plain(p.stream, End, STREAM_NOT_FOUND));
        action := Reply(cell);
      }
    }

    /** The digest is run over an END as well, though its payload is empty. */
    method HandleEnd(msg: Message) returns (action: ExitAction)
      requires Valid() && msg.command == End
      modifies Footprint()
      ensures Valid() && written == old(written)
      ensures forall dial :: (State(), action) == ExitStep(x, old(State()), msg, dial)
    {
      if shared == null {
        return Failed(NoCrypto);
      }
      var verified := shared.OpenCell(msg);
      if verified.None? {
        return Failed(DigestMismatch);
      }
      streams := streams - {msg.stream};
      var cell := shared.SealCell(Plain(msg.stream, End, []));
      action := Reply(cell);
    }

    /** A stream task has its own reference to the crypto state it was started with, and may seal after
        DESTROY took the handler's. */
    ghost predicate Owns(own: ExitCryptoState)
      reads this
    {
      own.Valid() && own.x == x && this !in own.Repr
    }

    /** What the circuit is to a task. */
    function Seen(own: ExitCryptoState): ExitState
      reads this, own.cipher, own.forwardDigest, own.backwardDigest
    {
      ExitState(Some(own.Value()), streams, tasks)
    }

    /** One turn of the chunk loop of a stream task: seal and write under the lock. */
    method SendChunk(t: nat, own: ExitCryptoState)
      requires Valid() && Owns(own) && t < |tasks|
      modifies this`tasks, this`written, own.Repr
      ensures Valid() && Owns(own) && Seen(own) == EmitChunk(x, old(Seen(own)), t).0
      ensures written == old(written) + [EmitChunk(x, old(Seen(own)), t).2]
    {
      var task := tasks[t];
      var n := Min(|task.outbox|, MAX_PAYLOAD_SIZE);
      var cell := own.SealCell(Plain(task.stream, Data, task.outbox[..n]));
      written := written + [cell];
      tasks := tasks[t := task.(outbox := task.outbox[n..])];
    }

    /** The destination closed or failed. */
    method SendEnd(t: nat, text: seq<byte>, own: ExitCryptoState)
      requires Valid() && Owns(own) && t < |tasks|
      modifies this`tasks, this`written, own.Repr
      ensures Valid() && Owns(own) && Seen(own) == EmitEnd(x, old(Seen(own)), t, text).0
      ensures written == old(written) + [EmitEnd(x, old(Seen(own)), t, text).2]
    {
      var cell := own.SealCell(Plain(tasks[t].stream, End, text));
      written := written + [cell];
      tasks := tasks[t := tasks[t].(live := false)];
    }
  }
}
