/** The backward keystreams, in every run: how far a hop is ahead depends on what is on the wires, not on its order. */
module Positions {
  import opened Common
  import opened Cells
  import opened Crypto
  import opened Onion
  import opened Pipeline
  import opened Relay
  import opened Exit
  import opened Network
  import opened Sync
  import opened Runs

  function HopBackward(w: World, i: nat): Cipher
    requires Shape(w) && i <= |w.relays|
  {
    if i < |w.relays| then w.relays[i].cipher.value.backward else w.exit.crypto.value.pair.backward
  }

  /** Keystream bytes that a cell costs every station it passes. */
  function Weight(m: Message): nat {
    if IsTraffic(m) then |m.data| else 0
  }

  lemma {:induction false} PayloadAppend(a: seq<Message>, b: seq<Message>)
    ensures Payload(a + b) == Payload(a) + Payload(b)
  {
    if a == [] {
      assert a + b == b;
    } else {
      assert (a + b)[0] == a[0] && (a + b)[1..] == a[1..] + b;
      PayloadAppend(a[1..], b);
    }
  }

  lemma {:induction false} PutWeighs(wires: seq<seq<Message>>, j: nat, m: Message, from: nat, to: nat)
    requires j < |wires| && from <= to <= |wires|
    ensures InFlight(Put(wires, j, m), from, to)
            == InFlight(wires, from, to) + if from <= j < to then Weight(m) else 0
  {
    if from < to {
      PutWeighs(wires, j, m, from, to - 1);
      if j == to - 1 {
        TrafficSnoc(wires[j], m);
        PayloadAppend(Traffic(wires[j]), [m]);
        assert Payload([m]) == |m.data|;
      }
    }
  }

  lemma {:induction false} TakeWeighs(wires: seq<seq<Message>>, j: nat, from: nat, to: nat)
    requires j < |wires| && wires[j] != [] && from <= to <= |wires|
    ensures InFlight(wires, from, to)
            == InFlight(Take(wires, j), from, to) + if from <= j < to then Weight(wires[j][0]) else 0
  {
    if from < to {
      TakeWeighs(wires, j, from, to - 1);
    }
  }

  /** Bytes between hop `i` and the client, a sealed reply counting as written. */
  function Ahead(w: World, i: nat): nat
    requires Shape(w) && i <= |w.relays|
  {
    InFlight(w.down, |w.relays| - i, |w.down|)
    + if w.reply.Some? && i == |w.relays| then Weight(w.reply.value) else 0
  }

  lemma {:induction false} AheadOnWires(w: World, i: nat)
    requires Shape(w) && i <= |w.relays|
    ensures Ahead(w, i) == InFlight(DownWires(w), |w.relays| - i, |w.down|)
  {
    if w.reply.Some? {
      PutWeighs(w.down, 0, w.reply.value, |w.relays| - i, |w.down|);
    }
  }

  /** Every hop is ahead of the client by exactly that. */
  ghost predicate Spaced(w: World) {
    && Shape(w)
    && forall i {:trigger HopBackward(w, i)} :: 0 <= i <= |w.relays| ==>
         HopBackward(w, i) == Skip(w.client.ciphers[i].backward, Ahead(w, i))
  }

  lemma {:induction false} NothingInFlight(wires: seq<seq<Message>>, from: nat, to: nat)
    requires from <= to <= |wires| && forall j :: 0 <= j < |wires| ==> wires[j] == []
    ensures InFlight(wires, from, to) == 0
  {
    if from < to {
      NothingInFlight(wires, from, to - 1);
    }
  }

  lemma {:induction false} BuiltSpaced(pairs: seq<Pair>)
    requires |pairs| >= 2
    ensures Spaced(Built(pairs))
  {
    var w := Built(pairs);
    forall i | 0 <= i <= |w.relays| ensures HopBackward(w, i) == Skip(w.client.ciphers[i].backward, Ahead(w, i)) {
      NothingInFlight(w.down, |w.relays| - i, |w.down|);
    }
  }

  /** Whatever leaves the backward ciphers, wires and reply alone. */
  lemma {:induction false} SpacedStays(w: World, w': World)
    requires Spaced(w) && Shape(w') && |w'.relays| == |w.relays| && w'.down == w.down && w'.reply == w.reply
    requires forall i {:trigger w'.client.ciphers[i]} :: 0 <= i <= |w.relays| ==>
               w'.client.ciphers[i].backward == w.client.ciphers[i].backward
    requires forall i {:trigger HopBackward(w', i)} :: 0 <= i <= |w.relays| ==> HopBackward(w', i) == HopBackward(w, i)
    ensures Spaced(w')
  {
    forall i | 0 <= i <= |w.relays| ensures HopBackward(w', i) == Skip(w'.client.ciphers[i].backward, Ahead(w', i)) {
      assert HopBackward(w, i) == Skip(w.client.ciphers[i].backward, Ahead(w, i));
      assert w'.client.ciphers[i].backward == w.client.ciphers[i].backward;
    }
  }

  /** The exit seals a cell and puts it on its wire, or keeps it as a reply: either way only it moves on. */
  lemma {:induction false} SpacedSeals(w: World, w': World, cell: Message)
    requires Spaced(w) && Shape(w') && w'.relays == w.relays && w'.client == w.client && IsTraffic(cell)
    requires w'.exit.crypto.value.pair.backward == Skip(w.exit.crypto.value.pair.backward, |cell.data|)
    requires || (w'.down == Put(w.down, 0, cell) && w'.reply == w.reply)
             || (w'.down == w.down && w.reply.None? && w'.reply == Some(cell))
    ensures Spaced(w')
  {
    forall i | 0 <= i <= |w.relays| ensures HopBackward(w', i) == Skip(w'.client.ciphers[i].backward, Ahead(w', i)) {
      assert HopBackward(w, i) == Skip(w.client.ciphers[i].backward, Ahead(w, i));
      PutWeighs(w.down, 0, cell, |w.relays| - i, |w.down|);
    }
  }

  /** What passing a cell back costs: its weight, and at hop `i` only. */
  lemma {:induction false} ReturnCosts(x: Circ, w: World, i: nat)
    requires Tidy(x, w) && CanRelayDown(x, w, i)
    ensures var w', j := RelayReturns(x, w, i), |w.relays| - 1 - i;
            var on := BackwardStep(x, w.relays[i], w.down[j][0]).1.cell;
            && Shape(w') && |w'.relays| == |w.relays| && w'.client == w.client && w'.reply == w.reply
            && w'.down == Put(Take(w.down, j), j + 1, on) && Weight(on) == Weight(w.down[j][0])
            && (forall h {:trigger HopBackward(w', h)} :: 0 <= h <= |w.relays| ==>
                  HopBackward(w', h) == Skip(HopBackward(w, h), if h == i then Weight(on) else 0))
  {
    hide Layer;
    AllDownTake(x, w.down, |w.relays| - 1 - i);
  }

  /** Hop `i` passes a cell on. */
  lemma {:induction false} SpacedReturns(x: Circ, w: World, i: nat)
    requires Spaced(w) && Tidy(x, w) && CanRelayDown(x, w, i)
    ensures Spaced(RelayReturns(x, w, i))
  {
    hide Tidy, BackwardStep, RelayReturns, HopBackward;
    var w', j := RelayReturns(x, w, i), |w.relays| - 1 - i;
    var on := BackwardStep(x, w.relays[i], w.down[j][0]).1.cell;
    ReturnCosts(x, w, i);
    forall h | 0 <= h <= |w.relays| ensures HopBackward(w', h) == Skip(w'.client.ciphers[h].backward, Ahead(w', h)) {
      assert HopBackward(w, h) == Skip(w.client.ciphers[h].backward, Ahead(w, h));
      TakeWeighs(w.down, j, |w.relays| - h, |w.down|);
      PutWeighs(Take(w.down, j), j + 1, on, |w.relays| - h, |w.down|);
    }
  }

  /** What reading a cell costs the client: its weight, for every hop. */
  lemma {:induction false} ReadCosts(x: Circ, w: World)
    requires Tidy(x, w) && w.down[|w.down| - 1] != []
    ensures var w', last := ClientTakes(x, w), |w.down| - 1;
            && Shape(w') && w'.relays == w.relays && w'.exit == w.exit && w'.reply == w.reply
            && w'.down == Take(w.down, last)
            && (forall h {:trigger w'.client.ciphers[h]} :: 0 <= h <= |w.relays| ==>
                  w'.client.ciphers[h].backward == Skip(w.client.ciphers[h].backward, Weight(w.down[last][0])))
  {
    hide Unwrap, Frame;
    AllDownTake(x, w.down, |w.down| - 1);
  }

  /** The client reads a cell, whether it likes it or not. */
  lemma {:induction false} SpacedReads(x: Circ, w: World)
    requires Spaced(w) && Tidy(x, w) && w.down[|w.down| - 1] != []
    ensures Spaced(ClientTakes(x, w))
  {
    hide ClientTakes, Tidy;
    var w', last := ClientTakes(x, w), |w.down| - 1;
    ReadCosts(x, w);
    forall h | 0 <= h <= |w.relays| ensures HopBackward(w', h) == Skip(w'.client.ciphers[h].backward, Ahead(w', h)) {
      assert HopBackward(w, h) == Skip(w.client.ciphers[h].backward, Ahead(w, h));
      assert w'.client.ciphers[h].backward == Skip(w.client.ciphers[h].backward, Weight(w.down[last][0]));
      TakeWeighs(w.down, last, |w.relays| - h, |w.down|);
    }
  }

  lemma {:induction false} SpacedForward(x: Circ, w: World, i: nat)
    requires Spaced(w) && Tidy(x, w) && CanRelayUp(x, w, i)
    ensures Spaced(RelayTakes(x, w, i))
  {
    hide Layer, Spaced;
    AllUpTake(x, w.up, i);
    SpacedStays(w, RelayTakes(x, w, i));
  }

  lemma {:induction false} SpacedExit(x: Circ, w: World, dial: Dial)
    requires Spaced(w) && Tidy(x, w) && CanExitTake(x, w, dial)
    ensures Spaced(ExitTakes(x, w, dial))
  {
    hide Through, Layer, Frame, Serve;
    var w', msg := ExitTakes(x, w, dial), w.up[|w.up| - 1][0];
    AllUpTake(x, w.up, |w.up| - 1);
    if IsTraffic(msg) {
      ExitEffect(x, w.exit, msg, dial);
      ExitCell(x, w, dial);
      var answer := ExitAnswer(x, w.exit, msg, dial);
      if answer.Some? {
        SpacedSeals(w, w', ExitStep(x, w.exit, msg, dial).1.cell);
      } else {
        SpacedStays(w, w');
      }
    } else {
      SpacedStays(w, w');
    }
  }

  lemma {:induction false} SpacedTask(x: Circ, w: World, a: Action)
    requires Spaced(w) && Enabled(x, w, a) && (a.TaskChunk? || a.TaskEnd?)
    ensures Spaced(Apply(x, w, a))
  {
    hide Through, Frame;
    var cell := if a.TaskChunk? then EmitChunk(x, w.exit, a.task).2 else EmitEnd(x, w.exit, a.task, a.text).2;
    SpacedSeals(w, Apply(x, w, a), cell);
  }

  lemma {:induction false} SpacedReply(x: Circ, w: World)
    requires Spaced(w) && w.reply.Some?
    ensures Spaced(Apply(x, w, WriteReply))
  {
    var w' := Apply(x, w, WriteReply);
    forall i | 0 <= i <= |w.relays| ensures HopBackward(w', i) == Skip(w'.client.ciphers[i].backward, Ahead(w', i)) {
      assert HopBackward(w, i) == Skip(w.client.ciphers[i].backward, Ahead(w, i));
      PutWeighs(w.down, 0, w.reply.value, |w.relays| - i, |w.down|);
    }
  }

  lemma {:induction false} SpacedTearDown(x: Circ, w: World, j: nat)
    requires Spaced(w) && j < |w.down|
    ensures Spaced(Apply(x, w, TearDown(j)))
  {
    var w' := Apply(x, w, TearDown(j));
    forall i | 0 <= i <= |w.relays| ensures HopBackward(w', i) == Skip(w'.client.ciphers[i].backward, Ahead(w', i)) {
      assert HopBackward(w, i) == Skip(w.client.ciphers[i].backward, Ahead(w, i));
      PutWeighs(w.down, j, CircuitMessage(x.id, Destroy, []), |w.relays| - i, |w.down|);
    }
  }

  /** The client's own steps and the relays' forward ones move no backward keystream. */
  lemma {:induction false} SpacedElsewhere(x: Circ, w: World, a: Action)
    requires Spaced(w) && Enabled(x, w, a)
    requires !a.RelayUp? && !a.RelayDown? && !a.ClientTake? && !a.ExitTake?
    requires !a.TaskChunk? && !a.TaskEnd? && !a.WriteReply? && !a.TearDown?
    ensures Spaced(Apply(x, w, a))
  {
    hide Through, Frame, Layer, Spaced;
    SpacedStays(w, Apply(x, w, a));
  }

  lemma {:induction false} SpacedStep(x: Circ, w: World, a: Action)
    requires Spaced(w) && Tidy(x, w) && Enabled(x, w, a)
    ensures Spaced(Apply(x, w, a))
  {
    hide Spaced, Tidy, CanRelayUp, CanRelayDown, CanExitTake;
    match a {
      case RelayUp(i) => SpacedForward(x, w, i);
      case RelayDown(i) => SpacedReturns(x, w, i);
      case ClientTake => SpacedReads(x, w);
      case ExitTake(dial) => SpacedExit(x, w, dial);
      case TaskChunk(_) => SpacedTask(x, w, a);
      case TaskEnd(_, _) => SpacedTask(x, w, a);
      case WriteReply => SpacedReply(x, w);
      case TearDown(j) => SpacedTearDown(x, w, j);
      case _ => SpacedElsewhere(x, w, a);
    }
  }

  lemma {:induction false} SpacedRun(x: Circ, w: World, actions: seq<Action>, pairs: seq<Pair>)
    requires Lockstep(x, w, pairs) && Spaced(w) && Run(x, w, actions).Some?
    ensures Spaced(Run(x, w, actions).value)
    decreases |actions|
  {
    hide Spaced, Enabled, Apply, UpSync, DownSync, Tidy;
    if actions != [] {
      SpacedStep(x, w, actions[0]);
      LockstepStep(x, w, actions[0], pairs);
      SpacedRun(x, Apply(x, w, actions[0]), actions[1..], pairs);
    }
  }

  /** Hop `i`'s backward cipher is the client's for that hop, ahead of it by exactly the payload bytes
      still on the wires from the hop, a sealed reply counting as written. This holds in every state of
      every run, also after a cell overtook a reply. */
  lemma {:induction false} BackwardPositionsAgree(x: Circ, pairs: seq<Pair>, actions: seq<Action>, w: World, i: nat)
    requires |pairs| >= 2 && Run(x, Built(pairs), actions) == Some(w) && i < |pairs|
    ensures Shape(w) && |w.relays| + 1 == |w.down| == |pairs|
    ensures HopBackward(w, i) == Skip(w.client.ciphers[i].backward, InFlight(DownWires(w), |pairs| - 1 - i, |pairs|))
  {
    hide UpSync, DownSync;
    BuiltLockstep(x, pairs);
    BuiltSpaced(pairs);
    LockstepRun(x, Built(pairs), actions, pairs);
    SpacedRun(x, Built(pairs), actions, pairs);
    AheadOnWires(w, i);
  }
}
