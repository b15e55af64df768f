/** The client's end of a circuit: stream ids, sealing what it sends, opening what it reads. */
module Client {
  import opened Common
  import opened Cells
  import opened Crypto
  import opened Onion
  import opened Pipeline
  import Relay

  datatype Status = Building | Ready | Dirty | Closing | Closed

  datatype ClientState = ClientState(
    status: Status,
    ciphers: seq<Pair>,       // entry first
    forward: seq<byte>,       // what the forward digest has absorbed
    backward: seq<byte>,
    senders: set<StreamId>,   // streams whose cells the reader passes on
    nextStream: StreamId)

  function FreshClient(ciphers: seq<Pair>): ClientState {
    ClientState(Ready, ciphers, [], [], {}, 1)
  }

  /** `wrapping_add(1)`, skipping 0. */
  function NextStreamId(id: StreamId): StreamId {
    var n := (id as int + 1) % 0x1_0000;
    if n == 0 then 1 else n
  }

  /** The id that the `n`-th allocation on a circuit (counted from 0) hands out. */
  function StreamIdAt(n: nat): StreamId {
    if n == 0 then 1 else NextStreamId(StreamIdAt(n - 1))
  }

  lemma {:induction false} RemainderIs(n: nat, q: nat, r: nat)
    requires n == 0xFFFF * q + r && r < 0xFFFF
    ensures n % 0xFFFF == r
  {
  }

  lemma {:induction false} StreamIdCycle(n: nat)
    ensures StreamIdAt(n) == 1 + n % 0xFFFF
  {
    if n > 0 {
      StreamIdCycle(n - 1);
      var q, r := (n - 1) / 0xFFFF, (n - 1) % 0xFFFF;
      if r == 0xFFFE {
        RemainderIs(n, q + 1, 0);
      } else {
        RemainderIs(n, q, r + 1);
      }
      NextAfter(r);
    }
  }

  lemma {:induction false} NextAfter(r: nat)
    requires r < 0xFFFF
    ensures NextStreamId(1 + r) == if r == 0xFFFE then 1 else r + 2
  {
  }

  /** 0 is never handed out, and two allocations get the same id exactly when they are a whole
      number of rounds of 65535 allocations apart. */
  lemma {:induction false} StreamIdsDistinct(i: nat, j: nat)
    requires i <= j
    ensures StreamIdAt(i) != 0
    ensures StreamIdAt(i) == StreamIdAt(j) <==> (j - i) % 0xFFFF == 0
    ensures i < j < i + 0xFFFF ==> StreamIdAt(i) != StreamIdAt(j)
  {
    StreamIdCycle(i);
    StreamIdCycle(j);
    var r, d := i % 0xFFFF, (j - i) % 0xFFFF;
    var q := i / 0xFFFF + (j - i) / 0xFFFF;
    if r + d < 0xFFFF {
      RemainderIs(j, q, r + d);
    } else {
      RemainderIs(j, q + 1, r + d - 0xFFFF);
    }
  }

  datatype SendError = PayloadTooLarge(size: nat)

  /** Digest, then every layer, then the write; the keys have moved on even if the write is refused. */
  function ClientSend(x: Circ, c: ClientState, p: Plain): (ClientState, Result<Message, SendError>) {
    var cell := Seal(x, Reverse(Forwards(c.ciphers)), c.forward, p);
    (c.(ciphers := SkipForwards(c.ciphers, |p.data|), forward := c.forward + Frame(p.stream, p.command, p.data)),
     if cell.Fits() then Ok(cell) else Err(PayloadTooLarge(|p.data|)))
  }

  datatype ClientEvent =
    | Delivered(cell: Plain)    // passed to the stream's channel
    | Unclaimed(cell: Plain)    // verified, but no such stream is registered
    | TornDown                  // DESTROY
    | Mismatch                  // the digest did not verify

  function CloseClient(c: ClientState): ClientState {
    c.(status := Closed, senders := {})
  }

  /** One turn of the circuit reader. After `TornDown` and `Mismatch` it stops. */
  function ClientReceive(x: Circ, c: ClientState, msg: Message): (ClientState, ClientEvent) {
    if msg.command == Destroy then (CloseClient(c), TornDown) else
    var data := Unwrap(x.mask, c.ciphers, msg.data);
    var absorbed := c.backward + Frame(msg.stream, msg.command, data);
    var c' := c.(ciphers := SkipBackwards(c.ciphers, |msg.data|), backward := absorbed);
    if x.hash(absorbed) != msg.digest then (CloseClient(c'), Mismatch)
    else
      var p := Plain(msg.stream, msg.command, data);
      (c', if msg.stream in c.senders then Delivered(p) else Unclaimed(p))
  }

  class Circuit {
    const x: Circ
    var status: Status
    const keys: OnionKeys
    var senders: set<StreamId>
    var nextStream: StreamId
    var entryWrite: seq<Message>  // what was written to the entry relay

    ghost predicate Valid()
      reads this, keys
    {
      && keys.Valid() && keys.mask == x.mask && keys.hash == x.hash
    }

    function State(): ClientState
      reads this, keys, keys.ciphers, keys.forwardDigest, keys.backwardDigest
    {
      ClientState(status, keys.Pairs(), keys.forwardDigest.absorbed, keys.backwardDigest.absorbed, senders, nextStream)
    }

    constructor (x: Circ, keys: OnionKeys)
      requires keys.Valid() && keys.mask == x.mask && keys.hash == x.hash
      requires keys.forwardDigest.absorbed == [] && keys.backwardDigest.absorbed == []
      ensures Valid() && this.x == x && this.keys == keys
      ensures State() == FreshClient(keys.Pairs()) && entryWrite == []
    {
      this.x := x;
      this.keys := keys;
      status := Ready;
      senders := {};
      nextStream := 1;
      entryWrite := [];
    }

    method AllocateStreamId() returns (id: StreamId)
      modifies this`nextStream
      ensures id == old(nextStream) && nextStream == NextStreamId(id)
    {
      id := nextStream;
      nextStream := if nextStream == 0xFFFF then 0 else nextStream + 1;
      if nextStream == 0 {
        nextStream := 1;
      }
    }

    method RegisterStream(id: StreamId)
      modifies this`senders
      ensures senders == old(senders) + {id}
    {
      senders := senders + {id};
    }

    method UnregisterStream(id: StreamId)
      modifies this`senders
      ensures senders == old(senders) - {id}
    {
      senders := senders - {id};
    }

    method SendMessage(stream: StreamId, command: Command, data: seq<byte>) returns (r: Result<(), SendError>)
      requires Valid()
      modifies this`entryWrite, keys.ciphers, keys.forwardDigest
      ensures Valid()
      ensures var (c, sent) := ClientSend(x, old(State()), Plain(stream, command, data));
              && State() == c
              && entryWrite == (if sent.Ok? then old(entryWrite) + [sent.value] else old(entryWrite))
              && r == (if sent.Ok? then Ok(()) else Err(sent.error))
    {
      ghost var was := State();
      var tag := keys.forwardDigest.Update(stream, command, data);
      var encrypted := Relay.ToArray(data);
      assert keys.Pairs() == was.ciphers;
      keys.OnionEncrypt(encrypted);
      var cell := Message(x.id, stream, command, encrypted[..], tag);
      assert cell == Seal(x, Reverse(Forwards(was.ciphers)), was.forward, Plain(stream, command, data));
      assert State() == ClientSend(x, was, Plain(stream, command, data)).0;
      if !cell.Fits() {
        return Err(PayloadTooLarge(|data|));
      }
      entryWrite := entryWrite + [cell];
      r := Ok(());
    }

    method ReadCell(msg: Message) returns (event: ClientEvent)
      requires Valid()
      modifies this`status, this`senders, keys.ciphers, keys.backwardDigest
      ensures Valid() && (State(), event) == ClientReceive(x, old(State()), msg)
    {
      if msg.command == Destroy {
        status := Closed;
        senders := {};
        return TornDown;
      }
      hide Through, Frame;
      ghost var was := State();
      var decrypted := Relay.ToArray(msg.data);
      assert keys.Pairs() == was.ciphers;
      keys.OnionDecrypt(decrypted);
      var ok := keys.backwardDigest.Verify(msg.stream, msg.command, decrypted[..], msg.digest);
      if !ok {
        status := Closed;
        senders := {};
        return Mismatch;
      }
      var p := Plain(msg.stream, msg.command, decrypted[..]);
      event := if msg.stream in senders then Delivered(p) else Unclaimed(p);
    }
  }
}
