/** Where lockstep ends backward: the exit seals a reply, and a stream task writes a cell before it. */
module Overtaking {
  import opened Common
  import opened Cells
  import opened Crypto
  import opened Onion
  import opened Pipeline
  import opened Relay
  import opened Exit
  import opened Client
  import opened Network
  import opened Sync
  import opened Runs
  import opened Tamper
  import opened Hearing
  import opened Lines

  /* Exactly when. */

  lemma {:induction false} LastCarried(x: Circ, wire: seq<Message>, layers: seq<Cipher>, log: seq<Plain>, from: nat,
      m: Message)
    requires Carries(x, wire + [m], layers, log, from, |log|) && IsTraffic(m)
    ensures log != [] && m == Sealed(x, layers, log, |log| - 1)
  {
    TrafficSnoc(wire, m);
    assert Traffic(wire + [m])[|Traffic(wire)|] == Sealed(x, layers, log, from + |Traffic(wire)|);
  }

  /** The last cell the first station wrote is the last of the log. */
  lemma {:induction false} LastWritten(x: Circ, stations: seq<seq<Cipher>>, wires: seq<seq<Message>>,
      base: seq<seq<Cipher>>, log: seq<Plain>, out: seq<Plain>, wire: seq<Message>, m: Message)
    requires InSync(x, stations, wires, base, log, out) && |wires| > 0 && |base| == |wires| + 1
    requires wires[0] == wire + [m] && IsTraffic(m)
    ensures log != [] && m == Sealed(x, Upto(base, 0), log, |log| - 1)
  {
    hide StationsAt, Carries;
    var taken: seq<nat> :| InStep(x, stations, wires, base, log, taken) && taken[|taken| - 1] == |out|;
    assert Carries(x, wires[0], Upto(base, 0), log, taken[1], taken[0]);
    LastCarried(x, wire, Upto(base, 0), log, taken[1], m);
  }

  /** With the cell behind the reply, as it was sealed, the line would be in step. */
  lemma {:induction false} InOrderIsInSync(x: Circ, w: World, s: ExitState, p: Plain, pairs: seq<Pair>)
    requires Lockstep(x, w, pairs) && !w.raced && s.crypto == Some(Emit(x, w.exit.crypto.value, p).0)
    requires p.command == Data || p.command == End
    ensures var cell := Emit(x, w.exit.crypto.value, p).1;
            var w' := TaskWrites(w, s, p, cell);
            && Shape(w') && |DownBase(pairs)| == |w.down| + 1
            && InSync(x, DownStations(w'), Put(DownWires(w), 0, cell), DownBase(pairs), w'.emitted, w.delivered)
            && w'.exit.crypto.value.backward == Transcript(w'.emitted, |w'.emitted|)
  {
    hide InSync, UpSync, Tidy;
    var c, cell := w.exit.crypto.value.pair.backward, Emit(x, w.exit.crypto.value, p).1;
    var w' := TaskWrites(w, s, p, cell);
    assert Tidy(x, w);
    ShapeOf(x, w);
    ExitStations(w, w', s.crypto.value);
    assert DownStations(w)[0] == [c];
    assert Advance([c], |p.data|) == [s.crypto.value.pair.backward];
    SendSync(x, DownStations(w), DownWires(w), DownBase(pairs), w.emitted, w.delivered, p, Put(DownWires(w), 0, cell));
    PrefixStable(w.emitted, [p], |w.emitted|);
  }

  lemma {:induction false} ShapeOf(x: Circ, w: World)
    requires Tidy(x, w)
    ensures Shape(w) && (w.reply.Some? ==> IsTraffic(w.reply.value))
  {
  }

  /** A stream task's write leaves the backward line in step if and only if no reply waits, or the cell is
      the reply itself, byte for byte. Both can be seen before the write. */
  lemma {:induction false} WriteKeepsSyncIff(x: Circ, w: World, s: ExitState, p: Plain, pairs: seq<Pair>)
    requires Lockstep(x, w, pairs) && !w.raced && s.crypto == Some(Emit(x, w.exit.crypto.value, p).0)
    requires p.command == Data || p.command == End
    ensures var cell := Emit(x, w.exit.crypto.value, p).1;
            DownSync(x, TaskWrites(w, s, p, cell), pairs) <==> w.reply.None? || cell == w.reply.value
  {
    hide InSync, UpSync, DownStations, DownBase, Tidy, Emit;
    var cell := Emit(x, w.exit.crypto.value, p).1;
    var w' := TaskWrites(w, s, p, cell);
    assert Tidy(x, w);
    ShapeOf(x, w);
    InOrderIsInSync(x, w, s, p, pairs);
    DownUnchanged(x, w, w', pairs);
    if w.reply.Some? {
      SealIsTraffic(x, w, p);
      var ordered := Put(DownWires(w), 0, cell);
      if cell == w.reply.value {
        assert DownWires(w') == ordered;
      }
      if DownSync(x, w', pairs) {
        var stations, base, reply := DownStations(w'), DownBase(pairs), w.reply.value;
        LastWritten(x, stations, ordered, base, w'.emitted, w.delivered, w.down[0] + [reply], cell);
        LastWritten(x, stations, DownWires(w'), base, w'.emitted, w.delivered, w.down[0] + [cell], reply);
      }
    }
  }

  lemma {:induction false} SealIsTraffic(x: Circ, w: World, p: Plain)
    requires Shape(w) && p.command != Padding && p.command != Destroy
    ensures IsTraffic(Emit(x, w.exit.crypto.value, p).1)
  {
  }

  lemma {:induction false} DownUnchanged(x: Circ, w: World, w': World, pairs: seq<Pair>)
    requires Lockstep(x, w, pairs) && !w.raced && w'.client == w.client && w'.delivered == w.delivered
    ensures w'.client.backward == Transcript(w'.delivered, |w'.delivered|)
  {
    hide InSync, UpSync, Tidy;
  }

  /** The cell a task's turn puts on the wire. */
  function TaskCell(x: Circ, w: World, a: Action): Message
    requires Enabled(x, w, a) && (a.TaskChunk? || a.TaskEnd?)
  {
    if a.TaskChunk? then EmitChunk(x, w.exit, a.task).2 else EmitEnd(x, w.exit, a.task, a.text).2
  }

  function TaskPlain(x: Circ, w: World, a: Action): Plain
    requires Enabled(x, w, a) && (a.TaskChunk? || a.TaskEnd?)
  {
    if a.TaskChunk? then EmitChunk(x, w.exit, a.task).1 else EmitEnd(x, w.exit, a.task, a.text).1
  }

  lemma {:induction false} TaskTurnIsWrite(x: Circ, w: World, a: Action)
    requires Enabled(x, w, a) && (a.TaskChunk? || a.TaskEnd?)
    ensures var p, w' := TaskPlain(x, w, a), Apply(x, w, a);
            && w'.exit.crypto == Some(Emit(x, w.exit.crypto.value, p).0)
            && TaskCell(x, w, a) == Emit(x, w.exit.crypto.value, p).1
            && w' == TaskWrites(w, w'.exit, p, TaskCell(x, w, a))
            && (p.command == Data || p.command == End)
  {
  }

  /** So for both turns of a task. */
  lemma {:induction false} TaskKeepsSyncIff(x: Circ, w: World, a: Action, pairs: seq<Pair>)
    requires Lockstep(x, w, pairs) && !w.raced && Enabled(x, w, a) && (a.TaskChunk? || a.TaskEnd?)
    ensures DownSync(x, Apply(x, w, a), pairs) <==> w.reply.None? || TaskCell(x, w, a) == w.reply.value
  {
    hide Lockstep, DownSync, Apply, Enabled, TaskPlain, TaskCell;
    TaskTurnIsWrite(x, w, a);
    WriteKeepsSyncIff(x, w, Apply(x, w, a).exit, TaskPlain(x, w, a), pairs);
  }

  /* What follows. */

  /** Cell `k` of the exit's log was overtaken by the next one: they reach the client, if at all, in the
      wrong order. */
  ghost predicate Overtaken(x: Circ, w: World, k: nat) {
    && k + 1 < |w.emitted| && |w.delivered| <= k
    && (w.client.status != Closed ==>
          && k - |w.delivered| < |Line(w.down)|
          && Line(w.down)[k - |w.delivered|] == Mark(x.hash(Transcript(w.emitted, k + 2)), |w.emitted[k + 1].data|))
  }

  /** Whatever is done elsewhere, more is only ever written behind it. */
  lemma {:induction false} OvertakenStays(x: Circ, w: World, w': World, k: nat, more: seq<Plain>, behind: seq<Mark>)
    requires Overtaken(x, w, k) && w'.emitted == w.emitted + more && w'.delivered == w.delivered
    requires w'.client.status == w.client.status || w'.client.status == Closed
    requires Line(w'.down) == Line(w.down) + behind
    ensures Overtaken(x, w', k)
  {
    hide Line;
    PrefixStable(w.emitted, more, k + 2);
  }

  lemma {:induction false} MovedLine(x: Circ, w: World, i: nat)
    requires Tidy(x, w) && CanRelayDown(x, w, i)
    ensures Line(RelayReturns(x, w, i).down) == Line(w.down)
  {
    hide Layer;
    var j := |w.relays| - 1 - i;
    var m, on := w.down[j][0], BackwardStep(x, w.relays[i], w.down[j][0]).1.cell;
    AllDownTake(x, w.down, j);
    if IsTraffic(m) {
      LineMove(w.down, j, on);
    } else {
      TakeControl(w.down, j);
      PutControl(Take(w.down, j), j + 1, on);
      LineOnlyTraffic(Put(Take(w.down, j), j + 1, on), w.down);
    }
  }

  /** What the exit's turn writes goes behind; a reply waits until it is written. */
  lemma {:induction false} ExitLine(x: Circ, w: World, dial: Dial) returns (more: seq<Plain>, behind: seq<Mark>)
    requires Tidy(x, w) && CanExitTake(x, w, dial)
    ensures var w' := ExitTakes(x, w, dial);
            && w'.emitted == w.emitted + more && Line(w'.down) == Line(w.down) + behind
            && w'.delivered == w.delivered && w'.client == w.client
  {
    hide Line, Layer, Frame, Serve, Seal;
    var w', msg := ExitTakes(x, w, dial), w.up[|w.up| - 1][0];
    AllUpTake(x, w.up, |w.up| - 1);
    more, behind := [], [];
    if IsTraffic(msg) {
      ExitEffect(x, w.exit, msg, dial);
      ExitCell(x, w, dial);
      var answer, act := ExitAnswer(x, w.exit, msg, dial), ExitStep(x, w.exit, msg, dial).1;
      if answer.Some? {
        more := [answer.value];
      }
      if act.Wrote? {
        LinePut(w.down, act.cell);
        behind := [MarkOf(act.cell)];
      }
    }
    assert w.emitted + [] == w.emitted && Line(w.down) + [] == Line(w.down);
  }

  lemma {:induction false} OvertakenElsewhere(x: Circ, w: World, a: Action, pairs: seq<Pair>, k: nat)
    requires Lockstep(x, w, pairs) && Enabled(x, w, a) && Overtaken(x, w, k)
    requires !a.ClientTake? && !a.ExitTake? && !a.TaskChunk? && !a.TaskEnd? && !a.RelayDown?
    ensures Overtaken(x, Apply(x, w, a), k)
  {
    hide UpSync, DownSync, Line, Overtaken, Seal;
    var w' := Apply(x, w, a);
    assert w.emitted + [] == w.emitted && Line(w.down) + [] == Line(w.down);
    if a.WriteReply? {
      LinePut(w.down, w.reply.value);
      OvertakenStays(x, w, w', k, [], [MarkOf(w.reply.value)]);
    } else {
      if a.TearDown? {
        PutControl(w.down, a.wire, CircuitMessage(x.id, Destroy, []));
        LineOnlyTraffic(w'.down, w.down);
      }
      OvertakenStays(x, w, w', k, [], []);
    }
  }

  lemma {:induction false} OvertakenTask(x: Circ, w: World, a: Action, k: nat)
    requires Enabled(x, w, a) && Overtaken(x, w, k) && (a.TaskChunk? || a.TaskEnd?)
    ensures Overtaken(x, Apply(x, w, a), k)
  {
    hide Line, Overtaken, Seal;
    TaskTurnIsWrite(x, w, a);
    var p, cell := TaskPlain(x, w, a), TaskCell(x, w, a);
    SealIsTraffic(x, w, p);
    LinePut(w.down, cell);
    OvertakenStays(x, w, Apply(x, w, a), k, [p], [MarkOf(cell)]);
  }

  /** The client may still read what came before; the overtaking cell closes its circuit. */
  lemma {:induction false} OvertakenReads(x: Circ, w: World, k: nat)
    requires Shape(w) && Truthful(x, w) && Overtaken(x, w, k) && w.client.status != Closed
    requires w.down[|w.down| - 1] != [] && w.down[|w.down| - 1][0].command != Padding
    requires IsTraffic(w.down[|w.down| - 1][0]) ==> NoCollision(x, w.emitted, [Hears(x, w)])
    ensures Overtaken(x, ClientTakes(x, w), k)
    ensures |w.delivered| == k ==> ClientTakes(x, w).client.status == Closed
  {
    hide Copies, Unwrap, Frame, Line, Transcript, NoCollision;
    var w', m := ClientTakes(x, w), w.down[|w.down| - 1][0];
    if IsTraffic(m) {
      LineTake(w.down);
      if |w.delivered| == k {
        OvertakerMismatches(x, w, k);
      }
    }
  }

  lemma {:induction false} OvertakerMismatches(x: Circ, w: World, k: nat)
    requires Shape(w) && w.delivered <= w.emitted && |w.delivered| == k && k + 1 < |w.emitted|
    requires w.client.backward == Transcript(w.delivered, k)
    requires w.down[|w.down| - 1] != [] && IsTraffic(w.down[|w.down| - 1][0])
    requires var m := w.down[|w.down| - 1][0];
             m.digest == x.hash(Transcript(w.emitted, k + 2)) && |m.data| == |w.emitted[k + 1].data|
    requires NoCollision(x, w.emitted, [Hears(x, w)])
    ensures ClientReceive(x, w.client, w.down[|w.down| - 1][0]).1 == Mismatch
  {
    hide Frame;
    assert w.emitted == w.delivered + w.emitted[k..];
    PrefixStable(w.delivered, w.emitted[k..], k);
    assert |Hears(x, w)| < |Transcript(w.emitted, k + 2)|;
    assert [Hears(x, w)][0] == Hears(x, w);
    assert Transcript(w.emitted, k + 2) == Transcript(w.emitted, k + 2);
  }

  lemma {:induction false} OvertakenStep(x: Circ, w: World, a: Action, pairs: seq<Pair>, k: nat)
    requires Lockstep(x, w, pairs) && Truthful(x, w) && w.raced && Overtaken(x, w, k)
    requires Enabled(x, w, a) && Clear(x, w, a)
    ensures Overtaken(x, Apply(x, w, a), k)
  {
    hide UpSync, DownSync, Truthful, Overtaken, Line, NoCollision, Hears;
    match a {
      case ClientTake =>
        DownIsNotPadding(x, w);
        OvertakenReads(x, w, k);
      case ExitTake(dial) =>
        var more, behind := ExitLine(x, w, dial);
        OvertakenStays(x, w, ExitTakes(x, w, dial), k, more, behind);
      case TaskChunk(_) => OvertakenTask(x, w, a, k);
      case TaskEnd(_, _) => OvertakenTask(x, w, a, k);
      case RelayDown(i) =>
        MovedLine(x, w, i);
        assert w.emitted + [] == w.emitted && Line(w.down) + [] == Line(w.down);
        OvertakenStays(x, w, RelayReturns(x, w, i), k, [], []);
      case _ => OvertakenElsewhere(x, w, a, pairs, k);
    }
  }

  lemma {:induction false} OvertakenRun(x: Circ, w: World, actions: seq<Action>, pairs: seq<Pair>, k: nat)
    requires Lockstep(x, w, pairs) && Truthful(x, w) && w.raced && Overtaken(x, w, k)
    requires Run(x, w, actions).Some? && HearsClearly(x, w, actions)
    ensures var w' := Run(x, w, actions).value;
            Lockstep(x, w', pairs) && Truthful(x, w') && Overtaken(x, w', k) && w'.raced
    decreases |actions|
  {
    hide Lockstep, Truthful, Overtaken, Clear, Enabled, Apply;
    if actions != [] {
      OvertakenStep(x, w, actions[0], pairs, k);
      TruthfulStep(x, w, actions[0], pairs);
      LockstepStep(x, w, actions[0], pairs);
      RacedStays(x, w, actions[0]);
      OvertakenRun(x, Apply(x, w, actions[0]), actions[1..], pairs, k);
    }
  }

  /** In step, as many cells are on the wires as were sealed and not yet delivered. */
  lemma {:induction false} LineIsInFlight(x: Circ, w: World, pairs: seq<Pair>)
    requires DownSync(x, w, pairs)
    ensures |w.delivered| <= |w.emitted| && |Line(DownWires(w))| == |w.emitted| - |w.delivered|
  {
    hide InSync, Line;
    LineIsLog(x, DownStations(w), DownWires(w), DownBase(pairs), w.emitted, w.delivered);
  }

  /** A task's turn while a reply waits overtakes the reply. */
  lemma {:induction false} TaskOvertakes(x: Circ, w: World, a: Action, pairs: seq<Pair>)
    requires Lockstep(x, w, pairs) && !w.raced && w.reply.Some? && Truthful(x, w)
    requires Enabled(x, w, a) && (a.TaskChunk? || a.TaskEnd?)
    ensures |w.emitted| > 0 && Overtaken(x, Apply(x, w, a), |w.emitted| - 1) && Apply(x, w, a).raced
  {
    hide UpSync, InSync, DownStations, DownBase, Line, Seal, Frame;
    var w', p, cell := Apply(x, w, a), TaskPlain(x, w, a), TaskCell(x, w, a);
    TaskTurnIsWrite(x, w, a);
    SealIsTraffic(x, w, p);
    LineIsInFlight(x, w, pairs);
    LinePut(w.down, w.reply.value);
    LinePut(w.down, cell);
    PrefixStable(w.emitted, [p], |w.emitted|);
    MarkOfSeal(x, w, p);
  }

  lemma {:induction false} MarkOfSeal(x: Circ, w: World, p: Plain)
    requires Shape(w)
    ensures MarkOf(Emit(x, w.exit.crypto.value, p).1)
            == Mark(x.hash(w.exit.crypto.value.backward + Frame(p.stream, p.command, p.data)), |p.data|)
  {
  }

  /** In every run in which a task's turn overtakes a waiting reply: the reply is never delivered, nor
      anything sealed after it, and when the client has read all that came before, the next cell that
      reaches it closes the circuit. */
  lemma {:induction false} OvertakingClosesClient(x: Circ, pairs: seq<Pair>, actions: seq<Action>, w: World, a: Action,
                                                  more: seq<Action>, w': World)
    requires |pairs| >= 2 && Run(x, Built(pairs), actions) == Some(w) && !w.raced && w.reply.Some?
    requires Enabled(x, w, a) && (a.TaskChunk? || a.TaskEnd?)
    requires Run(x, Apply(x, w, a), more) == Some(w') && HearsClearly(x, Apply(x, w, a), more)
    ensures |w'.delivered| < |w.emitted| && w'.delivered <= w'.emitted
    ensures |w'.delivered| == |w.emitted| - 1 && Enabled(x, w', ClientTake) && Clear(x, w', ClientTake) ==>
              Apply(x, w', ClientTake).client.status == Closed
  {
    hide Lockstep, Copies, Overtaken, Apply, HearsClearly;
    var w1 := Apply(x, w, a);
    BuiltLockstep(x, pairs);
    BuiltTruthful(x, pairs);
    LockstepRun(x, Built(pairs), actions, pairs);
    UnracedHearsClearly(x, Built(pairs), actions);
    TruthfulRun(x, Built(pairs), actions, pairs);
    TaskOvertakes(x, w, a, pairs);
    LockstepStep(x, w, a, pairs);
    TruthfulStep(x, w, a, pairs);
    OvertakenRun(x, w1, more, pairs, |w.emitted| - 1);
    OvertakenBounds(x, w', |w.emitted| - 1);
    if |w'.delivered| == |w.emitted| - 1 && Enabled(x, w', ClientTake) && Clear(x, w', ClientTake) {
      LastRead(x, w', pairs, |w.emitted| - 1);
    }
  }

  lemma {:induction false} OvertakenBounds(x: Circ, w: World, k: nat)
    requires Overtaken(x, w, k)
    ensures |w.delivered| <= k
  {
  }

  lemma {:induction false} LastRead(x: Circ, w: World, pairs: seq<Pair>, k: nat)
    requires Lockstep(x, w, pairs) && Truthful(x, w) && Overtaken(x, w, k) && w.raced && |w.delivered| == k
    requires Enabled(x, w, ClientTake) && Clear(x, w, ClientTake)
    ensures Apply(x, w, ClientTake).client.status == Closed
  {
    hide UpSync, DownSync, Truthful, Overtaken, ClientTakes, NoCollision, Hears;
    DownIsNotPadding(x, w);
    OvertakenReads(x, w, k);
  }
}
