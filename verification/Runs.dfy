/** What holds over every run of a circuit: every action keeps the invariant, and what that means. */
module Runs {
  import opened Common
  import opened Cells
  import opened Crypto
  import opened Onion
  import opened Pipeline
  import opened Relay
  import opened Exit
  import opened Client
  import opened Network
  import opened Sync

  lemma {:induction false} LocalLockstep(x: Circ, w: World, a: Action, pairs: seq<Pair>)
    requires Lockstep(x, w, pairs) && Enabled(x, w, a)
    requires a.OpenStream? || a.GiveUp? || a.ReadSocks? || a.TakeInbox? || a.Unregister? || a.LoseEntry?
             || a.FetchBytes? || a.TaskWrite?
    ensures Lockstep(x, Apply(x, w, a), pairs)
  {
    hide UpSync, DownSync, UpStations, DownStations, AllUp, AllDown;
    Aside(x, w, Apply(x, w, a), pairs);
  }

  /** The cell that one of the three sending actions seals. */
  function SentBy(w: World, a: Action): Plain
    requires (a.SendBegin? || a.SendChunk? || a.SendEnd?) && a.stream in w.local
  {
    var l := w.local[a.stream];
    match a
    case SendBegin(s) => Plain(s, Begin, l.destination + [0])
    case SendChunk(s) => Plain(s, Data, l.pending[..Min(|l.pending|, MAX_PAYLOAD_SIZE)])
    case SendEnd(s) => Plain(s, End, [])
  }

  /** Sealing, and the stream's local state moving on to match. */
  lemma {:induction false} SendTurns(x: Circ, w: World, a: Action)
    requires Enabled(x, w, a) && (a.SendBegin? || a.SendChunk? || a.SendEnd?)
    ensures a.stream in w.local
    ensures var w', s, p, was := Apply(x, w, a), a.stream, SentBy(w, a), w.local[a.stream];
            && s in w'.local && w' == ClientSends(x, w, p).(local := w.local[s := w'.local[s]])
            && (var l := w'.local[s];
                && l == was.(phase := l.phase, pending := l.pending)
                && ((l.phase == Waiting && was.phase == Registered) || (l.phase == was.phase && l.phase != Registered)
                    || l.phase == Ended)
                && was.pending == (if p.command == Data then p.data else []) + l.pending
                && (p.command == Begin ==> was.phase == Registered && p.data == l.destination + [0])
                && (p.command == Data || p.command == End ==> |p.data| <= MAX_PAYLOAD_SIZE))
  {
    hide ClientSends;
    if a.SendChunk? {
      var pending := w.local[a.stream].pending;
      var n := Min(|pending|, MAX_PAYLOAD_SIZE);
      assert pending == pending[..n] + pending[n..];
    }
  }

  lemma {:induction false} SendLockstep(x: Circ, w: World, a: Action, pairs: seq<Pair>)
    requires Lockstep(x, w, pairs) && Enabled(x, w, a) && (a.SendBegin? || a.SendChunk? || a.SendEnd?)
    ensures Lockstep(x, Apply(x, w, a), pairs)
  {
    hide UpSync, DownSync, UpStations, DownStations, AllUp, AllDown, ClientSend, Apply, Enabled;
    SendTurns(x, w, a);
    ClientSendsLockstep(x, w, SentBy(w, a), pairs);
    Aside(x, ClientSends(x, w, SentBy(w, a)), Apply(x, w, a), pairs);
  }

  lemma {:induction false} TaskLockstep(x: Circ, w: World, a: Action, pairs: seq<Pair>)
    requires Lockstep(x, w, pairs) && Enabled(x, w, a) && (a.TaskChunk? || a.TaskEnd?)
    ensures Lockstep(x, Apply(x, w, a), pairs)
  {
    hide UpSync, DownSync, UpStations, DownStations, AllUp, AllDown;
    var (s, p, cell) := if a.TaskChunk? then EmitChunk(x, w.exit, a.task) else EmitEnd(x, w.exit, a.task, a.text);
    TaskWritesLockstep(x, w, s, p, pairs);
  }

  /** Every action keeps the invariant. */
  lemma {:induction false} LockstepStep(x: Circ, w: World, a: Action, pairs: seq<Pair>)
    requires Lockstep(x, w, pairs) && Enabled(x, w, a)
    ensures Lockstep(x, Apply(x, w, a), pairs)
  {
    hide Lockstep, CanRelayUp, CanRelayDown, CanExitTake;
    match a {
      case SendBegin(_) => SendLockstep(x, w, a, pairs);
      case SendChunk(_) => SendLockstep(x, w, a, pairs);
      case SendEnd(_) => SendLockstep(x, w, a, pairs);
      case SendPadding(bytes) => PaddingLockstep(x, w, bytes, pairs);
      case RelayUp(i) => RelayTakesLockstep(x, w, i, pairs);
      case ExitTake(dial) => ExitTakesLockstep(x, w, dial, pairs);
      case WriteReply => WriteReplyLockstep(x, w, pairs);
      case TaskChunk(_) => TaskLockstep(x, w, a, pairs);
      case TaskEnd(_, _) => TaskLockstep(x, w, a, pairs);
      case RelayDown(i) => RelayReturnsLockstep(x, w, i, pairs);
      case TearDown(j) => TearDownLockstep(x, w, j, pairs);
      case ClientTake => ClientTakesLockstep(x, w, pairs);
      case _ => LocalLockstep(x, w, a, pairs);
    }
  }

  /** In every state that a circuit can reach, all parties are in lockstep. */
  lemma {:induction false} LockstepRun(x: Circ, w: World, actions: seq<Action>, pairs: seq<Pair>)
    requires Lockstep(x, w, pairs) && Run(x, w, actions).Some?
    ensures Lockstep(x, Run(x, w, actions).value, pairs)
    decreases |actions|
  {
    hide Lockstep, Enabled, Apply;
    if actions != [] {
      LockstepStep(x, w, actions[0], pairs);
      LockstepRun(x, Apply(x, w, actions[0]), actions[1..], pairs);
    }
  }

  lemma {:induction false} RunAppend(x: Circ, w: World, a: seq<Action>, b: seq<Action>)
    requires Run(x, w, a).Some?
    ensures Run(x, w, a + b) == Run(x, Run(x, w, a).value, b)
    decreases |a|
  {
    hide Enabled, Apply;
    if a == [] {
      assert a + b == b;
    } else {
      assert (a + b)[0] == a[0] && (a + b)[1..] == a[1..] + b;
      RunAppend(x, Apply(x, w, a[0]), a[1..], b);
    }
  }

  lemma {:induction false} RunOne(x: Circ, w: World, actions: seq<Action>, a: Action)
    requires Run(x, w, actions).Some? && Enabled(x, Run(x, w, actions).value, a)
    ensures Run(x, w, actions + [a]) == Some(Apply(x, Run(x, w, actions).value, a))
  {
    hide Enabled, Apply;
    RunAppend(x, w, actions, [a]);
    assert [a][1..] == [];
  }

  function HopForward(w: World, i: nat): Cipher
    requires Shape(w) && i <= |w.relays|
  {
    if i < |w.relays| then w.relays[i].cipher.value.forward else w.exit.crypto.value.pair.forward
  }

  lemma {:induction false} ForwardEnds(w: World, pairs: seq<Pair>, i: nat)
    requires Shape(w) && i < |pairs| == |w.relays| + 1
    ensures var n := |pairs|;
            && |UpStations(w)| == |UpBase(pairs)| == n + 1
            && |UpStations(w)[0]| == |UpBase(pairs)[0]| == n
            && UpStations(w)[0][n - 1 - i] == w.client.ciphers[i].forward
            && UpBase(pairs)[0][n - 1 - i] == pairs[i].forward
            && UpStations(w)[i + 1] == [HopForward(w, i)] && UpBase(pairs)[i + 1] == [pairs[i].forward]
  {
    assert UpStations(w)[0] == Reverse(Forwards(w.client.ciphers)) && UpBase(pairs)[0] == Reverse(Forwards(pairs));
  }

  /** The client's forward cipher for hop `i` is the hop's own, ahead of it by exactly the payload
      bytes still on the wires up to the hop. */
  lemma {:induction false} ForwardPositionsAgree(x: Circ, w: World, pairs: seq<Pair>, i: nat)
    requires Lockstep(x, w, pairs) && i < |pairs|
    ensures w.client.ciphers[i].forward == Skip(HopForward(w, i), InFlight(w.up, 0, i + 1))
  {
    hide InSync, DownSync, UpStations, UpBase;
    ForwardEnds(w, pairs, i);
    StationLag(x, UpStations(w), w.up, UpBase(pairs), w.sent, w.accepted, 0, i + 1, |pairs| - 1 - i, 0);
  }

  lemma {:induction false} ShapeIs(x: Circ, w: World, pairs: seq<Pair>)
    requires Lockstep(x, w, pairs)
    ensures |w.up| == |w.down| == |w.relays| + 1 && Shape(w)
  {
    hide UpSync, DownSync;
  }

  /** No relay stops on a cell of the circuit, in either direction. */
  lemma {:induction false} RelaysAcceptAll(x: Circ, w: World, pairs: seq<Pair>, i: nat)
    requires Lockstep(x, w, pairs) && i < |w.relays|
    ensures w.up[i] != [] ==> Enabled(x, w, RelayUp(i))
    ensures w.down[|w.relays| - 1 - i] != [] ==> Enabled(x, w, RelayDown(i))
  {
    hide UpSync, DownSync;
    if w.up[i] != [] {
      AllUpTake(x, w.up, i);
    }
  }

  /** The exit accepts every cell that reaches it, and gets back exactly the next one the client sent:
      with no reply waiting it stops only on a destination that is not UTF-8. */
  lemma {:induction false} ExitAcceptsAll(x: Circ, w: World, pairs: seq<Pair>, dial: Dial)
    requires Lockstep(x, w, pairs) && w.up[|w.up| - 1] != []
    ensures var msg := w.up[|w.up| - 1][0];
            && msg.command != Create && ExitStep(x, w.exit, msg, dial).1 != ExitAction.Failed(DigestMismatch)
            && (ExitStep(x, w.exit, msg, dial).1.Failed? ==> msg.command == Begin && dial.NotUtf8?)
            && (msg.command != Padding ==>
                  |w.accepted| < |w.sent| && Open(x, w.exit.crypto.value, msg).1 == Some(w.sent[|w.accepted|]))
  {
    hide InSync, DownSync;
    AllUpTake(x, w.up, |w.up| - 1);
    if w.up[|w.up| - 1][0].command != Padding {
      ExitOpens(x, w, pairs);
    }
  }

  lemma {:induction false} ExitKind(x: Circ, w: World, pairs: seq<Pair>)
    requires Lockstep(x, w, pairs) && w.up[|w.up| - 1] != [] && IsTraffic(w.up[|w.up| - 1][0])
    ensures var c := w.up[|w.up| - 1][0].command; c == Begin || c == Data || c == End
  {
    hide UpSync, DownSync;
    AllUpTake(x, w.up, |w.up| - 1);
  }

  /** The client accepts every cell that reaches it: the next one the exit sealed, or a DESTROY. */
  lemma {:induction false} ClientAcceptsAll(x: Circ, w: World, pairs: seq<Pair>)
    requires Lockstep(x, w, pairs) && !w.raced && w.down[|w.down| - 1] != []
    ensures var event := ClientReceive(x, w.client, w.down[|w.down| - 1][0]).1;
            && !event.Mismatch?
            && (event.Delivered? || event.Unclaimed? ==>
                  |w.delivered| < |w.emitted| && event.cell == w.emitted[|w.delivered|])
  {
    hide InSync, UpSync, Tidy;
    if IsTraffic(w.down[|w.down| - 1][0]) {
      ClientOpens(x, w, pairs);
    } else {
      assert Tidy(x, w);
      DownIsNotPadding(x, w);
    }
  }

  /** What may happen at any time; and a task whose last read is out may find its destination closed. */
  lemma {:induction false} AtAnyTime(x: Circ, w: World, bytes: seq<byte>, j: nat, t: nat)
    requires Shape(w) && |bytes| < MAX_PAYLOAD_SIZE
    ensures Enabled(x, w, OpenStream(bytes)) && Enabled(x, w, SendPadding(bytes)) && Enabled(x, w, LoseEntry)
    ensures j < |w.down| ==> Enabled(x, w, TearDown(j))
    ensures t < |w.exit.tasks| && w.exit.tasks[t].live && w.exit.tasks[t].outbox == [] ==>
              Enabled(x, w, TaskEnd(t, bytes))
  {
  }

  /** A DESTROY that reaches the client, or the loss of the entry relay, closes its circuit and every channel, and
      delivers nothing. */
  lemma {:induction false} DestroyCloses(x: Circ, w: World, a: Action)
    requires Enabled(x, w, a) && (a.LoseEntry? || (a.ClientTake? && w.down[|w.down| - 1][0].command == Destroy))
    ensures var w' := Apply(x, w, a);
            w'.client.status == Closed && w'.client.senders == {} && w'.delivered == w.delivered && w'.local == w.local
  {
  }

  lemma {:induction false} ClosedStays(x: Circ, w: World, a: Action)
    requires Enabled(x, w, a) && w.client.status == Closed
    ensures Apply(x, w, a).client.status == Closed && Apply(x, w, a).delivered == w.delivered
  {
    hide ClientTakes, Seal, ForwardStep, BackwardStep, ExitStep;
  }

  /** And nothing is delivered ever after. */
  lemma {:induction false} ClosedIsFinal(x: Circ, w: World, actions: seq<Action>)
    requires Run(x, w, actions).Some? && w.client.status == Closed
    ensures var w' := Run(x, w, actions).value; w'.client.status == Closed && w'.delivered == w.delivered
    decreases |actions|
  {
    hide Enabled, Apply;
    if actions != [] {
      ClosedStays(x, w, actions[0]);
      ClosedIsFinal(x, Apply(x, w, actions[0]), actions[1..]);
    }
  }

  lemma {:induction false} DownIsNotPadding(x: Circ, w: World)
    requires Tidy(x, w) && w.down[|w.down| - 1] != []
    ensures w.down[|w.down| - 1][0].command != Padding
  {
    AllDownTake(x, w.down, |w.down| - 1);
  }

  /** Every cell on a wire goes through the codec unchanged, whatever noise fills it up and however
      the last cell is cut off. */
  lemma {:induction false} WiresSurviveCodec(x: Circ, w: World, pairs: seq<Pair>, j: nat, noise: seq<Noise>,
      tail: seq<byte>)
    requires Lockstep(x, w, pairs) && j < |pairs| && |tail| < CELL_SIZE
    ensures |noise| == |w.up[j]| ==> ReadAll(EncodeAll(w.up[j], noise) + tail) == Ok(w.up[j])
    ensures |noise| == |w.down[j]| ==> ReadAll(EncodeAll(w.down[j], noise) + tail) == Ok(w.down[j])
  {
    hide UpSync, DownSync;
    if |noise| == |w.up[j]| {
      ReadAllEncodeAll(w.up[j], noise, tail);
    }
    if |noise| == |w.down[j]| {
      ReadAllEncodeAll(w.down[j], noise, tail);
    }
  }
}
