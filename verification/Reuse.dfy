/** What goes wrong when a stream id is handed out while the stream that held it is still served. */
module Reuse {
  import opened Common
  import opened Cells
  import opened Crypto
  import opened Pipeline
  import opened Exit
  import opened Network
  import opened Sync
  import opened Runs
  import opened Streams
  import opened Pipes
  import opened Draining
  import opened Witness

  /** How many more streams use up the ids after the first. */
  const ROUND: nat := 0xFFFE

  /** Stream 1 is being opened, its destination answered, and the answer reached its channel. */
  ghost predicate Answered(w: World) {
    && Empty(w) && w.reply.None? && !w.raced && w.streams == 1 && w.accepted == w.sent
    && w.exit.tasks == [Task(1, true, [], [], [], [])]
    && 1 in w.exit.streams && w.exit.streams[1].task == 0
    && InPhase(w, 1, Waiting) && w.local[1].read == [] && w.local[1].pending == [] && w.local[1].cursor == 0
    && w.local[1].inbox == [Plain(1, Connected, [])]
  }

  lemma {:induction false} OneStream(x: Circ, pairs: seq<Pair>, actions: seq<Action>, w: World)
    requires |pairs| >= 2 && Run(x, Built(pairs), actions) == Some(w) && w.streams <= 0xFFFF
    ensures Reached(x, pairs, actions, w)
  {
    hide Run, Built, SpareIds, Ids;
    BuiltIds(pairs);
    FewStreamsSpareIds(x, Built(pairs), actions);
  }

  lemma {:induction false} Answers(x: Circ, pairs: seq<Pair>, destination: seq<byte>)
    returns (actions: seq<Action>, w: World)
    requires |pairs| >= 2 && |destination| < MAX_PAYLOAD_SIZE
    ensures Run(x, Built(pairs), actions) == Some(w) && Lockstep(x, w, pairs) && Answered(w)
  {
    hide Lockstep, Enabled, Apply, Lone, EmptyWires, AllTraffic, Of, Run, Reached;
    actions := [OpenStream(destination), SendBegin(1)];
    var w1 := Asks(x, pairs, destination);
    var up, w2 := Climb(x, w1, 0, pairs);
    RunAppend(x, Built(pairs), actions, up);
    actions := actions + up;
    Serves(x, w2, pairs);
    ServesOnward(x, w2, pairs);
    LockstepStep(x, w2, ExitTake(Connects), pairs);
    RunOne(x, Built(pairs), actions, ExitTake(Connects));
    actions := actions + [ExitTake(Connects)];
    var w3 := Apply(x, w2, ExitTake(Connects));
    var down;
    down, w := DrainDown(x, w3, pairs);
    RunAppend(x, Built(pairs), actions, down);
    actions := actions + down;
    OneStream(x, pairs, actions, w);
    ReachedClearly(x, pairs, actions, w);
    ChannelGetsAll(x, pairs, actions, w, 1);
    OnlyCell(w.emitted, 1, Connected);
  }

  lemma {:induction false} OnlyCell(log: seq<Plain>, s: StreamId, command: Command)
    requires log == [] + [Plain(s, command, [])]
    ensures Of(log[0..], s) == [Plain(s, command, [])]
  {
    assert log[0..] == log && log[..0] == [];
  }

  /** The client of stream 1 reads the answer, and then some bytes from SOCKS. */
  lemma {:induction false} Reads(x: Circ, w: World, bytes: seq<byte>, pairs: seq<Pair>) returns (w': World)
    requires Lockstep(x, w, pairs) && Answered(w) && 0 < |bytes| <= MAX_PAYLOAD_SIZE
    ensures Run(x, w, [TakeInbox(1), ReadSocks(1, bytes)]) == Some(w') && Lockstep(x, w', pairs)
    ensures w' == w.(local := w'.local) && InPhase(w', 1, Relaying) && w'.local[1].pending == bytes
  {
    hide Lockstep, Empty;
    ShapeIs(x, w, pairs);
    var take, read := TakeInbox(1), ReadSocks(1, bytes);
    LockstepStep(x, w, take, pairs);
    var w1 := Apply(x, w, take);
    assert InPhase(w1, 1, Relaying) && Enabled(x, w1, read);
    LockstepStep(x, w1, read, pairs);
    w' := Apply(x, w1, read);
    assert [take, read][1..] == [read] && [read][1..] == [];
    assert Run(x, w1, [read]) == Some(w');
  }

  /** And sends them. */
  lemma {:induction false} Says(x: Circ, w: World, bytes: seq<byte>, pairs: seq<Pair>)
    requires Lockstep(x, w, pairs) && Empty(w) && InPhase(w, 1, Relaying)
    requires w.local[1].pending == bytes && 0 < |bytes| <= MAX_PAYLOAD_SIZE
    ensures Enabled(x, w, SendChunk(1))
    ensures var w' := Apply(x, w, SendChunk(1));
            && Lone(w', 0) && w'.reply == w.reply && w'.streams == w.streams && w'.exit == w.exit
            && w'.accepted == w.accepted && w'.sent == w.sent + [Plain(1, Data, bytes)]
  {
    hide Lockstep, Seal;
    ShapeIs(x, w, pairs);
    assert bytes[..|bytes|] == bytes;
    SealFits(x, w, Plain(1, Data, bytes));
  }

  lemma {:induction false} EmptyIs(w: World, w': World)
    requires Empty(w) && w'.up == w.up
    ensures Empty(w')
  {
  }

  /** The destination is handed all of them. */
  lemma {:induction false} Handed(x: Circ, w: World, bytes: seq<byte>, pairs: seq<Pair>)
    requires Lockstep(x, w, pairs) && w.exit.tasks == [Task(1, true, bytes, [], [], [])]
    ensures Enabled(x, w, TaskWrite(0, |bytes|, true))
    ensures var w' := Apply(x, w, TaskWrite(0, |bytes|, true));
            w'.exit.tasks == [Task(1, true, [], bytes, [], [])] && w'.streams == w.streams
  {
    hide UpSync, DownSync;
    assert bytes[|bytes|..] == [] && [] + bytes[..|bytes|] == bytes;
  }

  /** Streams may be opened at any time. */
  lemma {:induction false} OpensMany(x: Circ, w: World, n: nat) returns (w': World)
    requires Shape(w)
    ensures Run(x, w, Repeat(OpenStream([]), n)) == Some(w')
    ensures Shape(w') && w'.exit == w.exit && w'.streams == w.streams + n
    decreases n
  {
    if n == 0 {
      w' := w;
    } else {
      var open := OpenStream([]);
      w' := OpensMany(x, Apply(x, w, open), n - 1);
      assert Repeat(open, n)[1..] == Repeat(open, n - 1);
    }
  }

  /** On every circuit, for every destination and any bytes: once the first stream's bytes are delivered and
      65534 more streams were opened, the next stream gets the first one's id, while its task is alive. In
      the state before, all the stream theorems hold. In the one after, a live task has been handed bytes
      that the client of the stream with its id never sent. */
  lemma {:induction false} ReusedIdMisleads(x: Circ, pairs: seq<Pair>, destination: seq<byte>, bytes: seq<byte>,
      other: seq<byte>) returns (actions: seq<Action>, w: World)
    requires |pairs| >= 2 && |destination| < MAX_PAYLOAD_SIZE && |other| < MAX_PAYLOAD_SIZE
    requires 0 < |bytes| <= MAX_PAYLOAD_SIZE
    ensures Reached(x, pairs, actions, w) && Enabled(x, w, OpenStream(other)) && !Free(w, w.client.nextStream)
    ensures var w' := Apply(x, w, OpenStream(other));
            && |w'.exit.tasks| == 1 && w'.exit.tasks[0].live && w'.exit.tasks[0].written == bytes
            && w'.exit.tasks[0].stream in w'.local
            && w'.local[w'.exit.tasks[0].stream] == Opening(other, |w.emitted|, 1)
            && !(w'.exit.tasks[0].written <= w'.local[w'.exit.tasks[0].stream].read)
  {
    hide Lockstep, Enabled, Apply, Lone, Empty, Run, Reached, Repeat, Built;
    var w1;
    actions, w1 := Answers(x, pairs, destination);
    var w1' := Reads(x, w1, bytes, pairs);
    RunAppend(x, Built(pairs), actions, [TakeInbox(1), ReadSocks(1, bytes)]);
    actions := actions + [TakeInbox(1), ReadSocks(1, bytes)];
    EmptyIs(w1, w1');
    Says(x, w1', bytes, pairs);
    RunOne(x, Built(pairs), actions, SendChunk(1));
    actions := actions + [SendChunk(1)];
    LockstepStep(x, w1', SendChunk(1), pairs);
    var w2 := Apply(x, w1', SendChunk(1));
    var up, w3 := Climb(x, w2, 0, pairs);
    RunAppend(x, Built(pairs), actions, up);
    actions := actions + up;
    var w4 := Delivers(x, w1, w3, bytes, pairs);
    RunOne(x, Built(pairs), actions, ExitTake(Connects));
    actions := actions + [ExitTake(Connects)];
    Handed(x, w4, bytes, pairs);
    var write := TaskWrite(0, |bytes|, true);
    RunOne(x, Built(pairs), actions, write);
    actions := actions + [write];
    LockstepStep(x, w4, write, pairs);
    var w5 := Apply(x, w4, write);
    ShapeIs(x, w5, pairs);
    var opens := Repeat(OpenStream([]), ROUND);
    w := OpensMany(x, w5, ROUND);
    RunAppend(x, Built(pairs), actions, opens);
    actions := actions + opens;
    OneStream(x, pairs, actions, w);
    NextIsFirst(x, pairs, actions, w);
    Reopens(x, w, other, bytes);
  }

  lemma {:induction false} Delivers(x: Circ, w1: World, w3: World, bytes: seq<byte>, pairs: seq<Pair>)
    returns (w4: World)
    requires Answered(w1) && Lockstep(x, w3, pairs) && Lone(w3, |w3.relays|) && w3.reply.None?
    requires w3.exit == w1.exit && w3.sent == w3.accepted + [Plain(1, Data, bytes)] && w3.streams == 1
    ensures Enabled(x, w3, ExitTake(Connects)) && w4 == Apply(x, w3, ExitTake(Connects)) && Lockstep(x, w4, pairs)
    ensures w4.exit.tasks == [Task(1, true, bytes, [], [], [])] && w4.streams == 1
  {
    hide Lockstep, Apply, Enabled, Lone;
    Serves(x, w3, pairs);
    ServesOnward(x, w3, pairs);
    LockstepStep(x, w3, ExitTake(Connects), pairs);
    w4 := Apply(x, w3, ExitTake(Connects));
    assert [] + bytes == bytes;
  }

  lemma {:induction false} NextIsFirst(x: Circ, pairs: seq<Pair>, actions: seq<Action>, w: World)
    requires |pairs| >= 2 && Run(x, Built(pairs), actions) == Some(w) && w.streams == 0xFFFF
    ensures w.client.nextStream == 1 && 1 in w.local
  {
    hide Built;
    IdsRunOut(x, pairs, actions, w, [], w);
  }

  lemma {:induction false} Reopens(x: Circ, w: World, other: seq<byte>, bytes: seq<byte>)
    requires Shape(w) && |other| < MAX_PAYLOAD_SIZE && w.client.nextStream == 1 && 1 in w.local && bytes != []
    requires w.exit.tasks == [Task(1, true, [], bytes, [], [])]
    ensures Enabled(x, w, OpenStream(other)) && !Free(w, 1)
    ensures var w' := Apply(x, w, OpenStream(other));
            && w'.exit == w.exit && 1 in w'.local && w'.local[1] == Opening(other, |w.emitted|, 1)
  {
    assert w.exit.tasks[0].stream == 1 && w.exit.tasks[0].live;
  }
}
