/** A run, on any circuit, to a state in which a stream task can overtake a waiting reply. */
module Witness {
  import opened Common
  import opened Cells
  import opened Crypto
  import opened Pipeline
  import opened Exit
  import opened Client
  import opened Network
  import opened Sync
  import opened Runs
  import opened Pipes
  import opened Draining
  import opened Overtaking

  /** One enciphered cell is on its way up, on wire `i`. */
  ghost predicate Lone(w: World, i: nat) {
    && i < |w.up| && |w.up[i]| == 1 && IsTraffic(w.up[i][0])
    && forall j {:trigger w.up[j]} :: 0 <= j < |w.up| && j != i ==> w.up[j] == []
  }

  ghost predicate Empty(w: World) {
    forall j {:trigger w.up[j]} :: 0 <= j < |w.up| ==> w.up[j] == []
  }

  /** All but the wires up and the relays' ciphers. */
  ghost predicate SameEnds(w: World, w': World) {
    && w' == w.(relays := w'.relays, up := w'.up) && |w'.relays| == |w.relays| && |w'.up| == |w.up|
  }

  lemma {:induction false} ClimbOne(x: Circ, w: World, i: nat, pairs: seq<Pair>)
    requires Lockstep(x, w, pairs) && Lone(w, i) && i < |w.relays|
    ensures Enabled(x, w, RelayUp(i))
    ensures var w' := Apply(x, w, RelayUp(i)); Lone(w', i + 1) && SameEnds(w, w')
  {
    hide UpSync, DownSync, Layer;
    RelaysAcceptAll(x, w, pairs, i);
    AllUpTake(x, w.up, i);
  }

  /** The relays pass it on to the exit. */
  lemma {:induction false} Climb(x: Circ, w: World, i: nat, pairs: seq<Pair>) returns (actions: seq<Action>, w': World)
    requires Lockstep(x, w, pairs) && Lone(w, i)
    ensures Run(x, w, actions) == Some(w') && Lockstep(x, w', pairs) && Lone(w', |w.relays|) && SameEnds(w, w')
    decreases |w.up| - i
  {
    hide UpSync, DownSync, Tidy, Enabled, Apply;
    ShapeIs(x, w, pairs);
    if i == |w.relays| {
      actions, w' := [], w;
    } else {
      ClimbOne(x, w, i, pairs);
      LockstepStep(x, w, RelayUp(i), pairs);
      var rest;
      rest, w' := Climb(x, Apply(x, w, RelayUp(i)), i + 1, pairs);
      actions := [RelayUp(i)] + rest;
      assert actions[1..] == rest;
    }
  }

  /** The client opens a stream and asks for a destination. */
  lemma {:induction false} Asks(x: Circ, pairs: seq<Pair>, destination: seq<byte>) returns (w: World)
    requires |pairs| >= 2 && |destination| < MAX_PAYLOAD_SIZE
    ensures Run(x, Built(pairs), [OpenStream(destination), SendBegin(1)]) == Some(w)
    ensures Lockstep(x, w, pairs) && Lone(w, 0) && !w.raced && w.reply.None?
    ensures w.exit.tasks == [] && w.exit.streams == map[] && w.emitted == w.delivered == [] && AllTraffic(w.down)
    ensures w.streams == 1 && w.client.senders == {1} && w.client.status != Closed
    ensures 1 in w.local && w.local[1] == Opening(destination, 0, 0).(phase := Waiting)
    ensures w.accepted == [] && w.sent == [Plain(1, Begin, destination + [0])] && InPhase(w, 1, Waiting)
  {
    hide Lockstep, Seal;
    var w0, open := Built(pairs), OpenStream(destination);
    BuiltLockstep(x, pairs);
    LockstepStep(x, w0, open, pairs);
    var w1 := Apply(x, w0, open);
    LockstepStep(x, w1, SendBegin(1), pairs);
    w := Apply(x, w1, SendBegin(1));
    assert [open, SendBegin(1)][1..] == [SendBegin(1)] && [SendBegin(1)][1..] == [];
    var w1' := ClientSends(x, w1, Plain(1, Begin, destination + [0]));
    SealFits(x, w1, Plain(1, Begin, destination + [0]));
    assert [] + [Plain(1, Begin, destination + [0])] == [Plain(1, Begin, destination + [0])];
  }

  lemma {:induction false} SealFits(x: Circ, w: World, p: Plain)
    requires Shape(w) && |p.data| <= MAX_PAYLOAD_SIZE && p.command != Padding && p.command != Destroy
    requires Empty(w)
    ensures Lone(ClientSends(x, w, p), 0)
  {
  }

  /** The exit takes the cell that reached it. */
  lemma {:induction false} Serves(x: Circ, w: World, pairs: seq<Pair>)
    requires Lockstep(x, w, pairs) && Lone(w, |w.relays|) && w.reply.None?
    ensures Enabled(x, w, ExitTake(Connects)) && |w.accepted| < |w.sent|
    ensures var w', p := Apply(x, w, ExitTake(Connects)), w.sent[|w.accepted|];
            && Empty(w') && w'.accepted == w.accepted + [p] && w'.sent == w.sent && w'.local == w.local
            && w'.exit.tasks == Serve(w.exit, p, Connects).tasks
            && w'.exit.streams == Serve(w.exit, p, Connects).streams
            && w'.raced == w.raced
            && (p.command == Begin ==> w'.reply.None? && w'.emitted == w.emitted + [Plain(p.stream, Connected, [])])
            && (p.command == End ==> w'.reply.Some? && w'.reply.value.command == End)
  {
    hide UpSync, DownSync, Tidy, Serve, Layer, Frame, Through;
    ShapeIs(x, w, pairs);
    ExitAcceptsAll(x, w, pairs, Connects);
    ExitServes(x, w, Connects, pairs);
    ExitKeeps(x, w, Connects, pairs);
    var msg, p := w.up[|w.up| - 1][0], w.sent[|w.accepted|];
    ExitKind(x, w, pairs);
    ExitEffect(x, w.exit, msg, Connects);
    ExitOpens(x, w, pairs);
  }

  lemma {:induction false} ServesOnward(x: Circ, w: World, pairs: seq<Pair>)
    requires Lockstep(x, w, pairs) && Lone(w, |w.relays|) && w.reply.None?
    ensures Enabled(x, w, ExitTake(Connects)) && Onward(w, Apply(x, w, ExitTake(Connects)))
  {
    hide Lockstep, Enabled, Apply, Onward;
    ShapeIs(x, w, pairs);
    ExitMoves(x, w, Connects, pairs);
  }

  /** The client gives up waiting and says so. */
  lemma {:induction false} Leaves(x: Circ, w: World, pairs: seq<Pair>) returns (w': World)
    requires Lockstep(x, w, pairs) && Empty(w) && InPhase(w, 1, Waiting)
    ensures Run(x, w, [GiveUp(1), SendEnd(1)]) == Some(w')
    ensures Lockstep(x, w', pairs) && Lone(w', 0) && w'.raced == w.raced && w'.reply == w.reply
    ensures w'.exit == w.exit && w'.accepted == w.accepted && w'.sent == w.sent + [Plain(1, End, [])]
  {
    hide Lockstep, Seal;
    ShapeIs(x, w, pairs);
    LockstepStep(x, w, GiveUp(1), pairs);
    var w1 := Apply(x, w, GiveUp(1));
    LockstepStep(x, w1, SendEnd(1), pairs);
    w' := Apply(x, w1, SendEnd(1));
    assert [GiveUp(1), SendEnd(1)][1..] == [SendEnd(1)] && [SendEnd(1)][1..] == [];
    SealFits(x, w1, Plain(1, End, []));
  }

  /** A destination that answers at once and a client that gives up at once: the END in answer waits to be
      written while the stream's task has bytes to send. So the premise of the overtaking theorems is met,
      for every circuit, every destination and any bytes. */
  lemma {:induction false} TaskMeetsReply(x: Circ, pairs: seq<Pair>, destination: seq<byte>, bytes: seq<byte>)
    returns (actions: seq<Action>, w: World)
    requires |pairs| >= 2 && |destination| < MAX_PAYLOAD_SIZE && 0 < |bytes| <= READ_BUFFER
    ensures Run(x, Built(pairs), actions) == Some(w) && Lockstep(x, w, pairs) && !w.raced
    ensures w.reply.Some? && w.reply.value.command == End
    ensures |w.exit.tasks| == 1 && w.exit.tasks[0].live && w.exit.tasks[0].outbox == bytes
    ensures Enabled(x, w, TaskChunk(0))
  {
    hide Lockstep, Enabled, Apply, Lone, Empty;
    var start := [OpenStream(destination), SendBegin(1)];
    var w1 := Asks(x, pairs, destination);
    var up1, w2 := Climb(x, w1, 0, pairs);
    Serves(x, w2, pairs);
    LockstepStep(x, w2, ExitTake(Connects), pairs);
    var w3 := Apply(x, w2, ExitTake(Connects));
    RunAppend(x, Built(pairs), start, up1);
    RunOne(x, Built(pairs), start + up1, ExitTake(Connects));
    actions := start + up1 + [ExitTake(Connects)];
    var w4 := Leaves(x, w3, pairs);
    RunAppend(x, Built(pairs), actions, [GiveUp(1), SendEnd(1)]);
    actions := actions + [GiveUp(1), SendEnd(1)];
    var up2, w5 := Climb(x, w4, 0, pairs);
    RunAppend(x, Built(pairs), actions, up2);
    actions := actions + up2;
    Serves(x, w5, pairs);
    LockstepStep(x, w5, ExitTake(Connects), pairs);
    RunOne(x, Built(pairs), actions, ExitTake(Connects));
    actions := actions + [ExitTake(Connects)];
    var w6 := Apply(x, w5, ExitTake(Connects));
    Fetches(x, w6, bytes, pairs);
    LockstepStep(x, w6, FetchBytes(0, bytes), pairs);
    RunOne(x, Built(pairs), actions, FetchBytes(0, bytes));
    actions := actions + [FetchBytes(0, bytes)];
    w := Apply(x, w6, FetchBytes(0, bytes));
  }

  lemma {:induction false} Fetches(x: Circ, w: World, bytes: seq<byte>, pairs: seq<Pair>)
    requires Lockstep(x, w, pairs) && |w.exit.tasks| == 1 && w.exit.tasks[0].live && w.exit.tasks[0].outbox == []
    requires 0 < |bytes| <= READ_BUFFER
    ensures Enabled(x, w, FetchBytes(0, bytes))
    ensures var w' := Apply(x, w, FetchBytes(0, bytes));
            && w'.raced == w.raced && w'.reply == w.reply && Enabled(x, w', TaskChunk(0))
            && |w'.exit.tasks| == 1 && w'.exit.tasks[0].live && w'.exit.tasks[0].outbox == bytes
  {
    hide UpSync, DownSync;
    assert [] + bytes == bytes;
  }

  /** So on every circuit there is a run after which the backward line is out of step: the DATA that goes
      first can never be the END that was sealed first. */
  lemma {:induction false} OvertakingHappens(x: Circ, pairs: seq<Pair>, destination: seq<byte>, bytes: seq<byte>)
    returns (actions: seq<Action>, w: World)
    requires |pairs| >= 2 && |destination| < MAX_PAYLOAD_SIZE && 0 < |bytes| <= READ_BUFFER
    ensures Run(x, Built(pairs), actions) == Some(w) && w.raced && !DownSync(x, w, pairs)
  {
    hide Lockstep, DownSync, Apply, Enabled;
    var before, w0 := TaskMeetsReply(x, pairs, destination, bytes);
    TaskKeepsSyncIff(x, w0, TaskChunk(0), pairs);
    RunOne(x, Built(pairs), before, TaskChunk(0));
    actions, w := before + [TaskChunk(0)], Apply(x, w0, TaskChunk(0));
    ChunkIsData(x, w0);
  }

  lemma {:induction false} ChunkIsData(x: Circ, w: World)
    requires Enabled(x, w, TaskChunk(0))
    ensures TaskCell(x, w, TaskChunk(0)).command == Data
    ensures w.reply.Some? ==> Apply(x, w, TaskChunk(0)).raced
  {
  }
}
