/** Nothing gets stuck: from every state of a circuit, the relays, the exit and the client's reader alone can
    bring everything that was sealed to the other end. */
module Draining {
  import opened Common
  import opened Cells
  import opened Crypto
  import opened Onion
  import opened Pipeline
  import opened Relay
  import opened Exit
  import opened Client
  import opened Network
  import opened Sync
  import opened Runs
  import opened Streams
  import opened Hearing
  import opened Pipes
  import opened Ledger

  /** How many steps the cells on the wires are from the far end. */
  function Work(wires: seq<seq<Message>>): nat {
    if wires == [] then 0 else |wires[0]| * |wires| + Work(wires[1..])
  }

  lemma {:induction false} WorkTake(wires: seq<seq<Message>>, j: nat)
    requires j < |wires| && wires[j] != []
    ensures Work(Take(wires, j)) + |wires| - j == Work(wires)
  {
    if j > 0 {
      WorkTake(wires[1..], j - 1);
      assert Take(wires, j)[1..] == Take(wires[1..], j - 1);
    } else {
      assert Take(wires, 0)[1..] == wires[1..];
    }
  }

  lemma {:induction false} WorkPut(wires: seq<seq<Message>>, j: nat, m: Message)
    requires j < |wires|
    ensures Work(Put(wires, j, m)) == Work(wires) + |wires| - j
  {
    if j > 0 {
      WorkPut(wires[1..], j - 1, m);
      assert Put(wires, j, m)[1..] == Put(wires[1..], j - 1, m);
    } else {
      assert Put(wires, 0, m)[1..] == wires[1..];
    }
  }

  ghost predicate EmptyWires(wires: seq<seq<Message>>) {
    forall j {:trigger wires[j]} :: 0 <= j < |wires| ==> wires[j] == []
  }

  ghost predicate AllTraffic(wires: seq<seq<Message>>) {
    forall j, m {:trigger m in wires[j]} :: 0 <= j < |wires| && m in wires[j] ==> IsTraffic(m)
  }

  lemma {:induction false} TrafficTake(wires: seq<seq<Message>>, j: nat)
    requires AllTraffic(wires) && j < |wires| && wires[j] != []
    ensures AllTraffic(Take(wires, j)) && IsTraffic(wires[j][0])
  {
    assert wires[j][0] in wires[j];
    forall i, m | 0 <= i < |wires| && m in Take(wires, j)[i] ensures IsTraffic(m) {
      assert m in wires[i];
    }
  }

  lemma {:induction false} TrafficPut(wires: seq<seq<Message>>, j: nat, m: Message)
    requires AllTraffic(wires) && j < |wires| && IsTraffic(m)
    ensures AllTraffic(Put(wires, j, m))
  {
    forall i, c | 0 <= i < |wires| && c in Put(wires, j, m)[i] ensures IsTraffic(c) {
      assert c in wires[i] || c == m;
    }
  }

  /* A line whose wires are empty has delivered all of its log. */

  lemma {:induction false} AllPassed(x: Circ, stations: seq<seq<Cipher>>, wires: seq<seq<Message>>,
      base: seq<seq<Cipher>>, log: seq<Plain>, taken: seq<nat>, j: nat)
    requires InStep(x, stations, wires, base, log, taken) && EmptyWires(wires) && j <= |wires|
    ensures taken[j] == |log|
  {
    hide StationsAt;
    if j > 0 {
      AllPassed(x, stations, wires, base, log, taken, j - 1);
      assert Carries(x, wires[j - 1], Upto(base, j - 1), log, taken[j], taken[j - 1]);
    }
  }

  lemma {:induction false} EmptyIsDone(x: Circ, stations: seq<seq<Cipher>>, wires: seq<seq<Message>>,
      base: seq<seq<Cipher>>, log: seq<Plain>, out: seq<Plain>)
    requires InSync(x, stations, wires, base, log, out) && EmptyWires(wires)
    ensures out == log
  {
    hide StationsAt, WiresCarry;
    var taken: seq<nat> :| InStep(x, stations, wires, base, log, taken) && taken[|taken| - 1] == |out|;
    AllPassed(x, stations, wires, base, log, taken, |wires|);
  }

  /* Up. */

  /** What a dialled destination may come to, so that the exit goes on: a name that is not UTF-8 stops it. */
  predicate Dials(dial: Dial) {
    && !dial.NotUtf8?
    && (dial.Refused? ==> |Ascii("Connection failed: ") + dial.reason| <= MAX_PAYLOAD_SIZE)
  }

  /** What the way up leaves alone. */
  ghost predicate Onward(w: World, w': World) {
    && w'.client == w.client && w'.local == w.local && w'.sent == w.sent && w'.delivered == w.delivered
    && w'.raced == w.raced && w'.streams == w.streams && w.emitted <= w'.emitted
    && (AllTraffic(w.down) ==> AllTraffic(w'.down))
  }

  lemma {:induction false} RelayMoves(x: Circ, w: World, i: nat, pairs: seq<Pair>)
    requires Lockstep(x, w, pairs) && i < |w.relays| && w.up[i] != []
    ensures Enabled(x, w, RelayUp(i))
    ensures var w' := Apply(x, w, RelayUp(i));
            Work(w'.up) < Work(w.up) && w'.reply == w.reply && Onward(w, w')
  {
    hide UpSync, DownSync, Layer, Work;
    RelaysAcceptAll(x, w, pairs, i);
    WorkTake(w.up, i);
    var w' := Apply(x, w, RelayUp(i));
    if w'.up != Take(w.up, i) {
      var act := ForwardStep(x, w.relays[i], w.up[i][0]).1;
      WorkPut(Take(w.up, i), i + 1, act.cell);
    }
  }

  lemma {:induction false} ExitMoves(x: Circ, w: World, dial: Dial, pairs: seq<Pair>)
    requires Lockstep(x, w, pairs) && w.reply.None? && w.up[|w.up| - 1] != [] && Dials(dial)
    ensures Enabled(x, w, ExitTake(dial))
    ensures var w' := Apply(x, w, ExitTake(dial)); Work(w'.up) < Work(w.up) && Onward(w, w')
  {
    hide UpSync, DownSync, Work, ExitStep, Open, Answer;
    ExitAcceptsAll(x, w, pairs, dial);
    WorkTake(w.up, |w.up| - 1);
    AllUpTake(x, w.up, |w.up| - 1);
    if IsTraffic(w.up[|w.up| - 1][0]) {
      ExitCell(x, w, dial);
      var act := ExitStep(x, w.exit, w.up[|w.up| - 1][0], dial).1;
      if act.Wrote? && AllTraffic(w.down) {
        TrafficPut(w.down, 0, act.cell);
      }
    }
  }

  lemma {:induction false} ReplyMoves(x: Circ, w: World, pairs: seq<Pair>)
    requires Lockstep(x, w, pairs) && w.reply.Some?
    ensures Enabled(x, w, WriteReply)
    ensures var w' := Apply(x, w, WriteReply); w'.up == w.up && w'.reply.None? && Onward(w, w') && Homewards(w, w')
  {
    hide UpSync, DownSync;
    assert Tidy(x, w);
    if AllTraffic(w.down) {
      TrafficPut(w.down, 0, w.reply.value);
    }
  }

  /** One step, whichever can be made. */
  lemma {:induction false} UpMoves(x: Circ, w: World, dial: Dial, pairs: seq<Pair>) returns (a: Action)
    requires Lockstep(x, w, pairs) && Dials(dial) && (w.reply.Some? || !EmptyWires(w.up))
    ensures (a.RelayUp? || a == ExitTake(dial) || a == WriteReply) && Enabled(x, w, a)
    ensures var w' := Apply(x, w, a);
            Onward(w, w') && Lockstep(x, w', pairs) && UpLeft(w') < UpLeft(w)
  {
    hide UpSync, DownSync, Tidy, Work, Onward, Apply, Enabled;
    ShapeIs(x, w, pairs);
    if w.reply.Some? {
      a := WriteReply;
      ReplyMoves(x, w, pairs);
    } else {
      var j :| 0 <= j < |w.up| && w.up[j] != [];
      if j < |w.relays| {
        a := RelayUp(j);
        RelayMoves(x, w, j, pairs);
      } else {
        a := ExitTake(dial);
        ExitMoves(x, w, dial, pairs);
      }
    }
    LockstepStep(x, w, a, pairs);
  }

  function UpLeft(w: World): nat {
    2 * Work(w.up) + if w.reply.Some? then 1 else 0
  }

  /** From every state, whatever the destinations answer: the relays and the exit alone bring the exit all
      that was ever sent. */
  lemma {:induction false} DrainUp(x: Circ, w: World, dial: Dial, pairs: seq<Pair>)
    returns (actions: seq<Action>, w': World)
    requires Lockstep(x, w, pairs) && Dials(dial)
    ensures forall a :: a in actions ==> a.RelayUp? || a == ExitTake(dial) || a == WriteReply
    ensures Run(x, w, actions) == Some(w') && Lockstep(x, w', pairs)
    ensures Onward(w, w') && EmptyWires(w'.up) && w'.reply.None? && w'.accepted == w'.sent
    decreases UpLeft(w)
  {
    hide Lockstep, EmptyWires, Work, Apply, Enabled;
    if w.reply.None? && EmptyWires(w.up) {
      actions, w' := [], w;
      UpDone(x, w, pairs);
    } else {
      var a := UpMoves(x, w, dial, pairs);
      var rest;
      rest, w' := DrainUp(x, Apply(x, w, a), dial, pairs);
      actions := [a] + rest;
      assert actions[1..] == rest;
    }
  }

  lemma {:induction false} UpDone(x: Circ, w: World, pairs: seq<Pair>)
    requires Lockstep(x, w, pairs) && EmptyWires(w.up)
    ensures w.accepted == w.sent
  {
    hide InSync, DownSync, Tidy, UpStations, UpBase;
    EmptyIsDone(x, UpStations(w), w.up, UpBase(pairs), w.sent, w.accepted);
  }

  /* Down. */

  /** What the way down leaves alone. */
  ghost predicate Homewards(w: World, w': World) {
    && w'.exit == w.exit && w'.up == w.up && w'.sent == w.sent && w'.accepted == w.accepted
    && w'.emitted == w.emitted && w'.raced == w.raced && w'.streams == w.streams
    && w'.local.Keys == w.local.Keys
    && (forall s {:trigger w'.local[s]} :: s in w.local ==> w'.local[s] == w.local[s].(inbox := w'.local[s].inbox))
    && (AllTraffic(w.down) ==>
          AllTraffic(w'.down) && w'.client.status == w.client.status && w'.client.senders == w.client.senders)
  }

  lemma {:induction false} RelayMovesDown(x: Circ, w: World, i: nat, pairs: seq<Pair>)
    requires Lockstep(x, w, pairs) && i < |w.relays| && w.down[|w.relays| - 1 - i] != []
    ensures Enabled(x, w, RelayDown(i))
    ensures var w' := Apply(x, w, RelayDown(i));
            Work(w'.down) < Work(w.down) && w'.reply == w.reply && w'.client == w.client && Homewards(w, w')
  {
    hide UpSync, DownSync, Layer, Work;
    RelaysAcceptAll(x, w, pairs, i);
    var j := |w.relays| - 1 - i;
    var act := BackwardStep(x, w.relays[i], w.down[j][0]).1;
    WorkTake(w.down, j);
    WorkPut(Take(w.down, j), j + 1, act.cell);
    if AllTraffic(w.down) {
      TrafficTake(w.down, j);
      TrafficPut(Take(w.down, j), j + 1, act.cell);
    }
  }

  lemma {:induction false} ClientMoves(x: Circ, w: World, pairs: seq<Pair>)
    requires Lockstep(x, w, pairs) && !w.raced && w.client.status != Closed && w.down[|w.down| - 1] != []
    ensures Enabled(x, w, ClientTake)
    ensures var w' := Apply(x, w, ClientTake); Work(w'.down) < Work(w.down) && w'.reply == w.reply && Homewards(w, w')
  {
    hide UpSync, DownSync, Tidy, Unwrap, Frame, Work;
    ShapeIs(x, w, pairs);
    ClientAcceptsAll(x, w, pairs);
    WorkTake(w.down, |w.down| - 1);
    if AllTraffic(w.down) {
      TrafficTake(w.down, |w.down| - 1);
    }
  }

  lemma {:induction false} DownMoves(x: Circ, w: World, pairs: seq<Pair>) returns (a: Action)
    requires Lockstep(x, w, pairs) && !w.raced && w.client.status != Closed
    requires w.reply.Some? || !EmptyWires(w.down)
    ensures (a.RelayDown? || a == ClientTake || a == WriteReply) && Enabled(x, w, a)
    ensures var w' := Apply(x, w, a);
            && Homewards(w, w') && Lockstep(x, w', pairs)
            && ((w'.reply.None? && w.reply.Some?) || (w'.reply == w.reply && Work(w'.down) < Work(w.down)))
  {
    hide UpSync, DownSync, Tidy, Work, Homewards, Apply, Enabled;
    ShapeIs(x, w, pairs);
    if w.reply.Some? {
      a := WriteReply;
      ReplyMoves(x, w, pairs);
    } else {
      var j :| 0 <= j < |w.down| && w.down[j] != [];
      if j < |w.relays| {
        a := RelayDown(|w.relays| - 1 - j);
        RelayMovesDown(x, w, |w.relays| - 1 - j, pairs);
      } else {
        a := ClientTake;
        ClientMoves(x, w, pairs);
      }
    }
    LockstepStep(x, w, a, pairs);
  }

  /** From every state in which no cell overtook a reply and the client's circuit is open: the relays and the
      client's reader alone bring the client all that the exit ever sealed, unless a DESTROY is on its way. */
  lemma {:induction false} DrainDown(x: Circ, w: World, pairs: seq<Pair>) returns (actions: seq<Action>, w': World)
    requires Lockstep(x, w, pairs) && !w.raced && w.client.status != Closed
    ensures forall a :: a in actions ==> a.RelayDown? || a == ClientTake || a == WriteReply
    ensures Run(x, w, actions) == Some(w') && Lockstep(x, w', pairs) && Homewards(w, w')
    ensures w'.client.status != Closed ==> EmptyWires(w'.down) && w'.reply.None? && w'.delivered == w'.emitted
    ensures AllTraffic(w.down) ==> w'.client.status != Closed
    decreases w.reply.Some?, Work(w.down)
  {
    hide Lockstep, EmptyWires, Work, Apply, Enabled;
    if w.reply.None? && EmptyWires(w.down) {
      actions, w' := [], w;
      DownDone(x, w, pairs);
    } else {
      var a := DownMoves(x, w, pairs);
      var w1 := Apply(x, w, a);
      var rest: seq<Action>;
      if w1.client.status == Closed {
        rest, w' := [], w1;
      } else {
        rest, w' := DrainDown(x, w1, pairs);
      }
      actions := [a] + rest;
      assert actions[1..] == rest;
    }
  }

  lemma {:induction false} DownDone(x: Circ, w: World, pairs: seq<Pair>)
    requires Lockstep(x, w, pairs) && !w.raced && w.reply.None? && EmptyWires(w.down)
    ensures w.delivered == w.emitted
  {
    hide InSync, UpSync, Tidy, DownStations, DownBase;
    EmptyIsDone(x, DownStations(w), w.down, DownBase(pairs), w.emitted, w.delivered);
  }

  /* Both. */

  lemma {:induction false} SpareAppend(x: Circ, w: World, a: seq<Action>, b: seq<Action>)
    requires SpareIds(x, w, a) && Run(x, w, a).Some? && forall c :: c in b ==> !c.OpenStream?
    ensures SpareIds(x, w, a + b)
    decreases |a|, |b|
  {
    hide Enabled, Apply, Free;
    if a != [] {
      assert (a + b)[0] == a[0] && (a + b)[1..] == a[1..] + b;
      SpareAppend(x, Apply(x, w, a[0]), a[1..], b);
    } else if b != [] {
      assert a + b == b;
      if Enabled(x, w, b[0]) {
        SpareAppend(x, Apply(x, w, b[0]), [], b[1..]);
        assert [] + b[1..] == b[1..];
      }
    }
  }

  lemma {:induction false} ReachedOn(x: Circ, pairs: seq<Pair>, actions: seq<Action>, w: World, more: seq<Action>,
      w': World)
    requires Reached(x, pairs, actions, w) && Run(x, w, more) == Some(w') && forall c :: c in more ==> !c.OpenStream?
    ensures Reached(x, pairs, actions + more, w')
  {
    hide Run, SpareIds, Built;
    RunAppend(x, Built(pairs), actions, more);
    SpareAppend(x, Built(pairs), actions, more);
  }

  /** A registered stream's channel has all its cells once nothing is on the way. */
  lemma {:induction false} ChannelGetsAll(x: Circ, pairs: seq<Pair>, actions: seq<Action>, w: World, s: StreamId)
    requires Reached(x, pairs, actions, w) && HearsClearly(x, Built(pairs), actions) && w.delivered == w.emitted
    requires s in w.local && s in w.client.senders
    ensures w.local[s].sealedBefore <= |w.emitted|
    ensures w.local[s].inbox == Of(w.emitted[w.local[s].sealedBefore..], s)
  {
    hide Forward, Lockstep, Of, HearsClearly;
    var b := ReachedIsPiped(x, pairs, actions, w, true);
    HeardIsSealed(w, b, s);
  }

  /** From every state of a circuit that is open, with no DESTROY on its way and nothing overtaken, the
      relays, the exit and the reader alone finish the job: the destination of every stream that was connected,
      not ended since and not stopped by its destination was handed, or is about to be handed, all that was read
      from its SOCKS client and is no longer pending, and every channel has every cell of its stream. */
  lemma {:induction false} EverythingArrives(x: Circ, pairs: seq<Pair>, actions: seq<Action>, w: World, dial: Dial)
    returns (more: seq<Action>, w': World)
    requires Reached(x, pairs, actions, w) && Dials(dial)
    requires !w.raced && w.client.status != Closed && AllTraffic(w.down)
    ensures forall a :: a in more ==>
              a.RelayUp? || a == ExitTake(dial) || a == WriteReply || a.RelayDown? || a == ClientTake
    ensures Reached(x, pairs, actions + more, w') && !w'.raced
    ensures w'.accepted == w'.sent == w.sent && w'.delivered == w'.emitted
    ensures forall t {:trigger w'.begun[t]} ::
              && 0 <= t < |w'.begun| && w'.begun[t] < |w'.accepted|
              && OpenSince(w'.accepted, w'.begun, w'.accepted[w'.begun[t]].stream, t)
              && (forall a :: a in actions ==> !Stops(a, t)) ==>
                var s := w'.accepted[w'.begun[t]].stream;
                && s in w.local && t < |w'.exit.tasks| && w'.exit.tasks[t].live
                && (w'.exit.tasks[t].written + w'.exit.tasks[t].queue) + w.local[s].pending == w.local[s].read
    ensures forall s {:trigger w'.local[s]} :: s in w.local && s in w.client.senders ==>
              && s in w'.local && w.local[s].sealedBefore <= |w'.emitted|
              && w'.local[s].inbox == Of(w'.emitted[w.local[s].sealedBefore..], s)
  {
    hide Lockstep, Run, Reached, AllTraffic, EmptyWires, Of, HearsClearly, OpenSince;
    var b := ReachedIsPiped(x, pairs, actions, w, false);
    var up, w1 := DrainUp(x, w, dial, pairs);
    var down;
    down, w' := DrainDown(x, w1, pairs);
    more := up + down;
    ReachedOn(x, pairs, actions, w, up, w1);
    ReachedOn(x, pairs, actions + up, w1, down, w');
    assert (actions + up) + down == actions + more;
    ReachedClearly(x, pairs, actions + more, w');
    forall t | 0 <= t < |w'.begun| && w'.begun[t] < |w'.accepted|
        && OpenSince(w'.accepted, w'.begun, w'.accepted[w'.begun[t]].stream, t)
        && forall a :: a in actions ==> !Stops(a, t)
      ensures w'.accepted[w'.begun[t]].stream in w.local && t < |w'.exit.tasks| && w'.exit.tasks[t].live
      ensures var l := w.local[w'.accepted[w'.begun[t]].stream];
              (w'.exit.tasks[t].written + w'.exit.tasks[t].queue) + l.pending == l.read
    {
      OpenStreamGetsAll(x, pairs, actions + more, w', t);
    }
    forall s | s in w.local && s in w.client.senders
      ensures s in w'.local && w.local[s].sealedBefore <= |w'.emitted|
      ensures w'.local[s].inbox == Of(w'.emitted[w.local[s].sealedBefore..], s)
    {
      ChannelGetsAll(x, pairs, actions + more, w', s);
    }
  }

  /** And what is queued can be handed over: a task with nothing left to seal may write all of its queue, and then
      nothing waits. */
  lemma {:induction false} QueueIsHandedOver(x: Circ, w: World, t: nat)
    requires Shape(w) && t < |w.exit.tasks| && w.exit.tasks[t].live && w.exit.tasks[t].outbox == []
    ensures Enabled(x, w, TaskWrite(t, |w.exit.tasks[t].queue|, true))
    ensures var task, w' := w.exit.tasks[t], Apply(x, w, TaskWrite(t, |w.exit.tasks[t].queue|, true));
            w'.exit.tasks == w.exit.tasks[t := task.(queue := [], written := task.written + task.queue)]
            && w' == w.(exit := w'.exit)
  {
    var queue := w.exit.tasks[t].queue;
    assert queue[|queue|..] == [] && queue[..|queue|] == queue;
  }

  lemma {:induction false} ReachedClearly(x: Circ, pairs: seq<Pair>, actions: seq<Action>, w: World)
    requires Reached(x, pairs, actions, w) && !w.raced
    ensures HearsClearly(x, Built(pairs), actions)
  {
    hide Run, HearsClearly, Built;
    UnracedHearsClearly(x, Built(pairs), actions);
  }
}
