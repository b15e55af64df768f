/** The chunk loops at both ends: one read becomes as few cells as it can, in order. */
module Chunking {
  import opened Common
  import opened Cells
  import opened Crypto
  import opened Pipeline
  import opened Exit
  import opened Client
  import opened Network

  /** `chunks(497)`. */
  function Chunks(data: seq<byte>): seq<seq<byte>>
    decreases |data|
  {
    if data == [] then []
    else
      var n := Min(|data|, MAX_PAYLOAD_SIZE);
      [data[..n]] + Chunks(data[n..])
  }

  function Join(chunks: seq<seq<byte>>): seq<byte> {
    if chunks == [] then [] else chunks[0] + Join(chunks[1..])
  }

  /** Nothing lost or reordered, every chunk fits, none is empty, and all but the last are full. */
  lemma {:induction false} ChunksJoin(data: seq<byte>)
    ensures Join(Chunks(data)) == data
    ensures forall i {:trigger Chunks(data)[i]} :: 0 <= i < |Chunks(data)| ==>
              && 0 < |Chunks(data)[i]| <= MAX_PAYLOAD_SIZE
              && (i < |Chunks(data)| - 1 ==> |Chunks(data)[i]| == MAX_PAYLOAD_SIZE)
    decreases |data|
  {
    if data != [] {
      var n := Min(|data|, MAX_PAYLOAD_SIZE);
      ChunksJoin(data[n..]);
      assert data == data[..n] + data[n..];
    }
  }

  /** Seal one cell after the other, until one is refused. */
  function SendAll(x: Circ, c: ClientState, s: StreamId, chunks: seq<seq<byte>>): (ClientState, seq<Message>, bool)
    decreases |chunks|
  {
    if chunks == [] then (c, [], true)
    else
      var (c', cell) := ClientSend(x, c, Plain(s, Data, chunks[0]));
      if cell.Err? then (c', [], false)
      else
        var (done, cells, ok) := SendAll(x, c', s, chunks[1..]);
        (done, [cell.value] + cells, ok)
  }

  /** No chunk is ever refused. */
  lemma {:induction false} ChunksAreSent(x: Circ, c: ClientState, s: StreamId, data: seq<byte>)
    ensures SendAll(x, c, s, Chunks(data)).2 && |SendAll(x, c, s, Chunks(data)).1| == |Chunks(data)|
    decreases |data|
  {
    if data != [] {
      var n := Min(|data|, MAX_PAYLOAD_SIZE);
      ChunksAreSent(x, ClientSend(x, c, Plain(s, Data, data[..n])).0, s, data[n..]);
    }
  }

  /** One turn of the loop: the first chunk is sealed, and the rest is left to do. */
  lemma {:induction false} SendAllNext(x: Circ, c: ClientState, s: StreamId, data: seq<byte>)
    requires data != []
    ensures var n := Min(|data|, MAX_PAYLOAD_SIZE);
            var (c', cell) := ClientSend(x, c, Plain(s, Data, data[..n]));
            var (done, cells, ok) := SendAll(x, c', s, Chunks(data[n..]));
            cell.Ok? && ok && SendAll(x, c, s, Chunks(data)) == (done, [cell.value] + cells, true)
  {
    ChunksAreSent(x, c, s, data);
    var n := Min(|data|, MAX_PAYLOAD_SIZE);
    assert Chunks(data)[0] == data[..n] && Chunks(data)[1..] == Chunks(data[n..]);
  }

  /** The handler of a SOCKS connection sends what it read. */
  method SendRead(c: Circuit, s: StreamId, data: seq<byte>) returns (ok: bool)
    requires c.Valid()
    modifies c`entryWrite, c.keys.ciphers, c.keys.forwardDigest
    ensures c.Valid() && ok
    ensures var (done, cells, _) := SendAll(c.x, old(c.State()), s, Chunks(data));
            c.State() == done && c.entryWrite == old(c.entryWrite) + cells
  {
    hide ClientSend, Chunks;
    ghost var was, written := c.State(), c.entryWrite;
    ghost var cells: seq<Message> := [];
    ChunksAreSent(c.x, was, s, data);
    assert [] + SendAll(c.x, was, s, Chunks(data)).1 == SendAll(c.x, was, s, Chunks(data)).1;
    var rest := data;
    while rest != []
      invariant c.Valid() && c.entryWrite == written + cells
      invariant SendAll(c.x, was, s, Chunks(data)).0 == SendAll(c.x, c.State(), s, Chunks(rest)).0
      invariant SendAll(c.x, was, s, Chunks(data)).1 == cells + SendAll(c.x, c.State(), s, Chunks(rest)).1
      decreases |rest|
    {
      var n := Min(|rest|, MAX_PAYLOAD_SIZE);
      ghost var next := ClientSend(c.x, c.State(), Plain(s, Data, rest[..n])).1;
      SendAllNext(c.x, c.State(), s, rest);
      var sent := c.SendMessage(s, Data, rest[..n]);
      if sent.Err? {
        return false;
      }
      rest := rest[n..];
      Regroup(cells, [next.value], SendAll(c.x, c.State(), s, Chunks(rest)).1);
      cells := cells + [next.value];
    }
    NoChunks();
    ok := true;
  }

  lemma {:induction false} NoChunks()
    ensures Chunks([]) == []
  {
  }

  /** The client's share of opening a stream: the next id, registered before anything is sent. */
  function Enrolled(c: ClientState): ClientState {
    c.(nextStream := NextStreamId(c.nextStream), senders := c.senders + {c.nextStream})
  }

  /** A new stream: allocate, register, BEGIN. */
  method OpenStream(c: Circuit, destination: seq<byte>) returns (id: StreamId, r: Result<(), SendError>)
    requires c.Valid()
    modifies c`nextStream, c`senders, c`entryWrite, c.keys.ciphers, c.keys.forwardDigest
    ensures c.Valid() && id == old(c.nextStream)
    ensures var (done, cell) := ClientSend(c.x, Enrolled(old(c.State())), Plain(id, Begin, destination + [0]));
            && c.State() == done && (r.Ok? <==> |destination| < MAX_PAYLOAD_SIZE)
            && c.entryWrite == old(c.entryWrite) + (if cell.Ok? then [cell.value] else [])
  {
    ghost var was := c.State();
    id := c.AllocateStreamId();
    c.RegisterStream(id);
    assert c.State() == Enrolled(was);
    r := c.SendMessage(id, Begin, destination + [0]);
  }

  /** Best effort: END, then the channel goes whether or not that was sent. */
  method CleanUp(c: Circuit, id: StreamId)
    requires c.Valid()
    modifies c`senders, c`entryWrite, c.keys.ciphers, c.keys.forwardDigest
    ensures c.Valid()
    ensures var (done, cell) := ClientSend(c.x, old(c.State()), Plain(id, End, []));
            && c.State() == done.(senders := done.senders - {id})
            && cell.Ok? && c.entryWrite == old(c.entryWrite) + [cell.value]
  {
    var sent := c.SendMessage(id, End, []);
    c.UnregisterStream(id);
  }

  /** Opening is two steps of the network, and leaves the client as the method does. */
  lemma {:induction false} OpeningIsRun(x: Circ, w: World, destination: seq<byte>)
    requires Shape(w) && |destination| < MAX_PAYLOAD_SIZE
    ensures var run := Run(x, w, [Action.OpenStream(destination), SendBegin(w.client.nextStream)]);
            && run.Some?
            && run.value.client
               == ClientSend(x, Enrolled(w.client), Plain(w.client.nextStream, Begin, destination + [0])).0
            && InPhase(run.value, w.client.nextStream, Waiting)
  {
    hide Seal, Frame;
    var open, begin := Action.OpenStream(destination), SendBegin(w.client.nextStream);
    var w1 := Apply(x, w, open);
    assert Enabled(x, w1, begin);
    var w2 := Apply(x, w1, begin);
    assert [open, begin][1..] == [begin] && [begin][1..] == [];
    assert Run(x, w1, [begin]) == Some(w2);
  }

  /** And so is cleaning up. */
  lemma {:induction false} CleaningUpIsRun(x: Circ, w: World, id: StreamId)
    requires Shape(w) && InPhase(w, id, Ending)
    ensures var run := Run(x, w, [SendEnd(id), Unregister(id)]);
            && run.Some? && InPhase(run.value, id, Gone)
            && (var done := ClientSend(x, w.client, Plain(id, End, [])).0;
                run.value.client == done.(senders := done.senders - {id}))
  {
    hide Seal, Frame;
    var w1 := Apply(x, w, SendEnd(id));
    assert Enabled(x, w1, Unregister(id));
    assert [SendEnd(id), Unregister(id)][1..] == [Unregister(id)] && [Unregister(id)][1..] == [];
    assert Run(x, w1, [Unregister(id)]) == Some(Apply(x, w1, Unregister(id)));
  }

  function DataCells(s: StreamId, chunks: seq<seq<byte>>): seq<Plain> {
    if chunks == [] then [] else [Plain(s, Data, chunks[0])] + DataCells(s, chunks[1..])
  }

  /** What one turn of the loop does. */
  lemma {:induction false} ChunkStep(x: Circ, w: World, s: StreamId)
    requires Shape(w) && InPhase(w, s, Relaying) && w.local[s].pending != []
    ensures Enabled(x, w, SendChunk(s))
    ensures var n, w1 := Min(|w.local[s].pending|, MAX_PAYLOAD_SIZE), Apply(x, w, SendChunk(s));
            var p := Plain(s, Data, w.local[s].pending[..n]);
            var (c, cell) := ClientSend(x, w.client, p);
            && Shape(w1) && cell.Ok? && w1.client == c && w1.sent == w.sent + [p]
            && w1.up == w.up[0 := w.up[0] + [cell.value]]
            && w1.local == w.local[s := w.local[s].(pending := w.local[s].pending[n..])]
  {
    hide Transcript, Frame;
  }

  /** In the network the loop is a run of as many steps as there are chunks: afterwards nothing is
      pending, and the log and the wire have grown by exactly these cells. */
  lemma {:induction false} ChunkLoopIsRun(x: Circ, w: World, s: StreamId) returns (w': World)
    requires Shape(w) && InPhase(w, s, Relaying)
    ensures var chunks := Chunks(w.local[s].pending);
            && Run(x, w, Repeat(SendChunk(s), |chunks|)) == Some(w')
            && w'.local == w.local[s := w.local[s].(pending := [])]
            && w'.sent == w.sent + DataCells(s, chunks)
            && w'.client == SendAll(x, w.client, s, chunks).0
            && |w'.up| == |w.up| && w'.up == w.up[0 := w.up[0] + SendAll(x, w.client, s, chunks).1]
    decreases |w.local[s].pending|
  {
    hide Shape, Enabled, Apply, ClientSend;
    var l := w.local[s];
    if l.pending == [] {
      w' := w;
      assert w.local[s := l] == w.local;
      assert w.sent + [] == w.sent;
      ShapeHasEntry(w);
      assert w.up[0] + [] == w.up[0];
    } else {
      var n := Min(|l.pending|, MAX_PAYLOAD_SIZE);
      ChunkStep(x, w, s);
      var w1 := Apply(x, w, SendChunk(s));
      ShapeHasEntry(w);
      w' := ChunkLoopIsRun(x, w1, s);
      var chunks, more := Chunks(l.pending), Chunks(l.pending[n..]);
      assert chunks[0] == l.pending[..n] && chunks[1..] == more;
      assert Repeat(SendChunk(s), |chunks|)[1..] == Repeat(SendChunk(s), |more|);
      Regroup(w.sent, [Plain(s, Data, chunks[0])], DataCells(s, more));
      Regroup(w.up[0], [ClientSend(x, w.client, Plain(s, Data, chunks[0])).1.value], SendAll(x, w1.client, s, more).1);
    }
  }

  lemma {:induction false} ShapeHasEntry(w: World)
    requires Shape(w)
    ensures |w.up| > 0
  {
  }

  /** The exit's loop, each turn under the crypto lock. */
  function EmitAll(x: Circ, s: ExitState, t: nat): (ExitState, seq<Message>)
    requires t < |s.tasks| && s.crypto.Some?
    decreases |s.tasks[t].outbox|
  {
    if s.tasks[t].outbox == [] then (s, [])
    else
      var (s1, _, cell) := EmitChunk(x, s, t);
      var (done, cells) := EmitAll(x, s1, t);
      (done, [cell] + cells)
  }

  lemma {:induction false} EmitAllEmpties(x: Circ, s: ExitState, t: nat)
    requires t < |s.tasks| && s.crypto.Some?
    ensures var (done, cells) := EmitAll(x, s, t);
            && |done.tasks| == |s.tasks| && done.tasks[t] == s.tasks[t].(outbox := []) && done.streams == s.streams
            && |cells| == |Chunks(s.tasks[t].outbox)|
            && forall m :: m in cells ==> m.Fits() && m.command == Data && m.stream == s.tasks[t].stream
    decreases |s.tasks[t].outbox|
  {
    if s.tasks[t].outbox != [] {
      EmitAllEmpties(x, EmitChunk(x, s, t).0, t);
    }
  }

  /** While a circuit is up `own` is the handler's own state, and then `Seen` is its `State`. */
  method DrainOutbox(h: ExitHandler, t: nat, own: ExitCryptoState)
    requires h.Valid() && h.Owns(own) && t < |h.tasks|
    modifies h`tasks, h`written, own.Repr
    ensures h.Valid() && h.Owns(own) && h.Seen(own) == EmitAll(h.x, old(h.Seen(own)), t).0
    ensures h.written == old(h.written) + EmitAll(h.x, old(h.Seen(own)), t).1
    ensures own == old(h.shared) ==> h.State() == EmitAll(h.x, old(h.State()), t).0
  {
    ghost var was, written := h.Seen(own), h.written;
    ghost var cells: seq<Message> := [];
    assert [] + EmitAll(h.x, was, t).1 == EmitAll(h.x, was, t).1;
    while h.tasks[t].outbox != []
      invariant h.Valid() && h.Owns(own) && t < |h.tasks| && h.written == written + cells
      invariant EmitAll(h.x, was, t) == (EmitAll(h.x, h.Seen(own), t).0, cells + EmitAll(h.x, h.Seen(own), t).1)
      decreases |h.tasks[t].outbox|
    {
      ghost var now := h.Seen(own);
      h.SendChunk(t, own);
      ghost var next := EmitChunk(h.x, now, t).2;
      Regroup(cells, [next], EmitAll(h.x, h.Seen(own), t).1);
      cells := cells + [next];
    }
  }
}
