/** What the client can believe of the backward direction, in every run: also after a cell overtook a reply
    it accepts nothing but a prefix of what the exit sealed, because it checks the digest and stops. */
module Hearing {
  import opened Common
  import opened Cells
  import opened Crypto
  import opened Onion
  import opened Pipeline
  import opened Relay
  import opened Exit
  import opened Client
  import opened Network
  import opened Sync
  import opened Runs
  import opened Tamper

  /** Every enciphered cell on its way back has the digest and the length of a cell the exit sealed. */
  ghost predicate AllCopied(x: Circ, wires: seq<seq<Message>>, emitted: seq<Plain>) {
    forall j, m {:trigger m in wires[j]} :: 0 <= j < |wires| && m in wires[j] && IsTraffic(m) ==> Copied(x, m, emitted)
  }

  ghost predicate Copies(x: Circ, w: World) {
    && AllCopied(x, w.down, w.emitted)
    && (w.reply.Some? && IsTraffic(w.reply.value) ==> Copied(x, w.reply.value, w.emitted))
    && w.exit.crypto.Some? && w.exit.crypto.value.backward == Transcript(w.emitted, |w.emitted|)
  }

  /** While its circuit is open, the client has accepted a prefix of what the exit sealed and absorbed
      exactly that; after it closed, a prefix all the same. */
  ghost predicate Truthful(x: Circ, w: World) {
    && Copies(x, w) && w.delivered <= w.emitted
    && (w.client.status != Closed ==> w.client.backward == Transcript(w.delivered, |w.delivered|))
  }

  /** What the client's digest has absorbed once its next cell is in. */
  function Hears(x: Circ, w: World): seq<byte>
    requires Shape(w) && w.down[|w.down| - 1] != []
  {
    var m := w.down[|w.down| - 1][0];
    w.client.backward + Frame(m.stream, m.command, Unwrap(x.mask, w.client.ciphers, m.data))
  }

  /** Nothing is asked until a cell overtook a reply; from then on, that what the client compares does
      not collide with what the exit sealed. */
  ghost predicate Clear(x: Circ, w: World, a: Action)
    requires Enabled(x, w, a)
  {
    a.ClientTake? && w.raced && IsTraffic(w.down[|w.down| - 1][0]) ==> NoCollision(x, w.emitted, [Hears(x, w)])
  }

  ghost predicate HearsClearly(x: Circ, w: World, actions: seq<Action>)
    decreases |actions|
  {
    actions != [] && Enabled(x, w, actions[0]) ==>
      Clear(x, w, actions[0]) && HearsClearly(x, Apply(x, w, actions[0]), actions[1..])
  }

  lemma {:induction false} RacedStays(x: Circ, w: World, a: Action)
    requires Enabled(x, w, a) && w.raced
    ensures Apply(x, w, a).raced
  {
  }

  lemma {:induction false} RacedStaysRun(x: Circ, w: World, actions: seq<Action>)
    requires w.raced && Run(x, w, actions).Some?
    ensures Run(x, w, actions).value.raced
    decreases |actions|
  {
    hide Enabled, Apply;
    if actions != [] {
      RacedStays(x, w, actions[0]);
      RacedStaysRun(x, Apply(x, w, actions[0]), actions[1..]);
    }
  }

  /** A run in which nothing overtook a reply asks for nothing. */
  lemma {:induction false} UnracedHearsClearly(x: Circ, w: World, actions: seq<Action>)
    requires Run(x, w, actions).Some? && !Run(x, w, actions).value.raced
    ensures HearsClearly(x, w, actions)
    decreases |actions|
  {
    hide Enabled, Apply;
    if w.raced {
      RacedStaysRun(x, w, actions);
    }
    if actions != [] {
      UnracedHearsClearly(x, Apply(x, w, actions[0]), actions[1..]);
    }
  }

  lemma {:induction false} AllCopiedGrows(x: Circ, wires: seq<seq<Message>>, emitted: seq<Plain>, p: Plain)
    requires AllCopied(x, wires, emitted)
    ensures AllCopied(x, wires, emitted + [p])
  {
    hide Copied;
    forall j, m | 0 <= j < |wires| && m in wires[j] && IsTraffic(m) ensures Copied(x, m, emitted + [p]) {
      CopiedGrows(x, m, emitted, p);
    }
  }

  lemma {:induction false} AllCopiedPut(x: Circ, wires: seq<seq<Message>>, emitted: seq<Plain>, j: nat, m: Message)
    requires AllCopied(x, wires, emitted) && j < |wires| && (IsTraffic(m) ==> Copied(x, m, emitted))
    ensures AllCopied(x, Put(wires, j, m), emitted)
  {
    hide Copied;
    forall i, c | 0 <= i < |wires| && c in Put(wires, j, m)[i] && IsTraffic(c) ensures Copied(x, c, emitted) {
      assert c in wires[i] || c == m;
    }
  }

  lemma {:induction false} AllCopiedTake(x: Circ, wires: seq<seq<Message>>, emitted: seq<Plain>, j: nat)
    requires AllCopied(x, wires, emitted) && j < |wires| && wires[j] != []
    ensures AllCopied(x, Take(wires, j), emitted) && (IsTraffic(wires[j][0]) ==> Copied(x, wires[j][0], emitted))
  {
    hide Copied;
    assert wires[j][0] in wires[j];
    forall i, c | 0 <= i < |wires| && c in Take(wires, j)[i] && IsTraffic(c) ensures Copied(x, c, emitted) {
      assert c in wires[i];
    }
  }

  /** The exit seals a cell, to be written now or later. */
  lemma {:induction false} CopiesSeals(x: Circ, w: World, w': World, station: seq<Cipher>, p: Plain)
    requires Copies(x, w) && w'.exit.crypto.Some? && w.down != []
    requires w'.exit.crypto.value.backward
             == w.exit.crypto.value.backward + Frame(p.stream, p.command, p.data)
    requires w'.emitted == w.emitted + [p]
    requires var cell := Seal(x, station, w.exit.crypto.value.backward, p);
             || (w'.down == Put(w.down, 0, cell) && w'.reply == w.reply)
             || (w'.down == w.down && w'.reply == Some(cell))
    ensures Copies(x, w')
  {
    hide Copied, Seal;
    var cell := Seal(x, station, w.exit.crypto.value.backward, p);
    SealIsCopied(x, station, w.emitted, p);
    AllCopiedGrows(x, w.down, w.emitted, p);
    AllCopiedPut(x, w.down, w'.emitted, 0, cell);
    PrefixStable(w.emitted, [p], |w.emitted|);
    if w.reply.Some? && IsTraffic(w.reply.value) {
      CopiedGrows(x, w.reply.value, w.emitted, p);
    }
  }

  lemma {:induction false} CopiesExit(x: Circ, w: World, dial: Dial, pairs: seq<Pair>)
    requires Lockstep(x, w, pairs) && Copies(x, w) && CanExitTake(x, w, dial)
    ensures Copies(x, ExitTakes(x, w, dial))
  {
    hide Copied, AllCopied, UpSync, DownSync, Transcript, Layer, Frame, Serve, Seal;
    var w', msg := ExitTakes(x, w, dial), w.up[|w.up| - 1][0];
    AllUpTake(x, w.up, |w.up| - 1);
    if IsTraffic(msg) {
      ExitEffect(x, w.exit, msg, dial);
      var answer := ExitAnswer(x, w.exit, msg, dial);
      if answer.Some? {
        CopiesSeals(x, w, w', [w.exit.crypto.value.pair.backward], answer.value);
      }
    }
  }

  lemma {:induction false} CopiesTask(x: Circ, w: World, a: Action)
    requires Copies(x, w) && Enabled(x, w, a) && (a.TaskChunk? || a.TaskEnd?)
    ensures Copies(x, Apply(x, w, a))
  {
    hide Copied, AllCopied, Transcript, Frame, Seal;
    var p := if a.TaskChunk? then EmitChunk(x, w.exit, a.task).1 else EmitEnd(x, w.exit, a.task, a.text).1;
    CopiesSeals(x, w, Apply(x, w, a), [w.exit.crypto.value.pair.backward], p);
  }

  lemma {:induction false} CopiesReturns(x: Circ, w: World, i: nat)
    requires Tidy(x, w) && Copies(x, w) && CanRelayDown(x, w, i)
    ensures Copies(x, RelayReturns(x, w, i))
  {
    hide Copied, AllCopied, Transcript, Layer;
    var j := |w.relays| - 1 - i;
    var m, on := w.down[j][0], BackwardStep(x, w.relays[i], w.down[j][0]).1.cell;
    AllCopiedTake(x, w.down, w.emitted, j);
    if IsTraffic(m) {
      RelaysKeepCopies(x, w.relays[i], m, w.emitted);
    } else {
      AllDownTake(x, w.down, j);
    }
    AllCopiedPut(x, Take(w.down, j), w.emitted, j + 1, on);
  }

  lemma {:induction false} CopiesElsewhere(x: Circ, w: World, a: Action)
    requires Copies(x, w) && Enabled(x, w, a)
    requires !a.RelayDown? && !a.ClientTake? && !a.ExitTake? && !a.TaskChunk? && !a.TaskEnd?
    ensures Copies(x, Apply(x, w, a))
  {
    hide Copied, AllCopied, Transcript;
    var w' := Apply(x, w, a);
    if a.WriteReply? {
      AllCopiedPut(x, w.down, w.emitted, 0, w.reply.value);
    } else if a.TearDown? {
      AllCopiedPut(x, w.down, w.emitted, a.wire, CircuitMessage(x.id, Destroy, []));
    }
  }

  lemma {:induction false} CopiesReads(x: Circ, w: World)
    requires Copies(x, w) && Shape(w) && w.down[|w.down| - 1] != []
    ensures Copies(x, ClientTakes(x, w))
  {
    hide Copied, AllCopied, Transcript, Unwrap, Frame;
    AllCopiedTake(x, w.down, w.emitted, |w.down| - 1);
  }

  lemma {:induction false} CopiesStep(x: Circ, w: World, a: Action, pairs: seq<Pair>)
    requires Lockstep(x, w, pairs) && Copies(x, w) && Enabled(x, w, a)
    ensures Copies(x, Apply(x, w, a))
  {
    hide UpSync, DownSync, Tidy, Copies, CanRelayUp, CanRelayDown, CanExitTake;
    match a {
      case RelayDown(i) => CopiesReturns(x, w, i);
      case ClientTake => CopiesReads(x, w);
      case ExitTake(dial) => CopiesExit(x, w, dial, pairs);
      case TaskChunk(_) => CopiesTask(x, w, a);
      case TaskEnd(_, _) => CopiesTask(x, w, a);
      case _ => CopiesElsewhere(x, w, a);
    }
  }

  /** The client reads a cell after the order broke: it is the next one, or the circuit closes. */
  lemma {:induction false} TruthfulReads(x: Circ, w: World)
    requires Shape(w) && Truthful(x, w) && w.client.status != Closed && w.down[|w.down| - 1] != []
    requires IsTraffic(w.down[|w.down| - 1][0]) ==> NoCollision(x, w.emitted, [Hears(x, w)])
    requires w.down[|w.down| - 1][0].command != Padding
    ensures Truthful(x, ClientTakes(x, w))
  {
    hide Copies, Copied, NoCollision, Transcript, Frame, Unwrap;
    var w', m, k := ClientTakes(x, w), w.down[|w.down| - 1][0], |w.delivered|;
    CopiesReads(x, w);
    var event := ClientReceive(x, w.client, m).1;
    if event.Delivered? || event.Unclaimed? {
      ClientAbsorbs(x, w.client, m);
      NextIsCopied(x, w);
      assert w.emitted == w.delivered + w.emitted[k..];
      PrefixStable(w.delivered, w.emitted[k..], k);
      AcceptedIsNext(x, w.emitted, k, m, event.cell, Hears(x, w), [Hears(x, w)]);
      assert w.emitted == w'.delivered + w.emitted[k + 1..];
      PrefixStable(w'.delivered, w.emitted[k + 1..], k + 1);
    }
  }

  lemma {:induction false} NextIsCopied(x: Circ, w: World)
    requires Shape(w) && Copies(x, w) && w.down[|w.down| - 1] != [] && IsTraffic(w.down[|w.down| - 1][0])
    ensures Copied(x, w.down[|w.down| - 1][0], w.emitted)
  {
    AllCopiedTake(x, w.down, w.emitted, |w.down| - 1);
  }

  /** Every other step leaves the client's log and digest alone. */
  lemma {:induction false} OthersAreNotHeard(x: Circ, w: World, a: Action)
    requires Enabled(x, w, a) && !a.ClientTake?
    ensures var w' := Apply(x, w, a);
            && w'.delivered == w.delivered && w'.client.backward == w.client.backward && w.emitted <= w'.emitted
            && (w'.client.status == w.client.status || w'.client.status == Closed)
  {
  }

  lemma {:induction false} InSyncIsPrefix(x: Circ, w: World, pairs: seq<Pair>)
    requires DownSync(x, w, pairs)
    ensures w.delivered <= w.emitted
  {
  }

  lemma {:induction false} TruthfulStep(x: Circ, w: World, a: Action, pairs: seq<Pair>)
    requires Lockstep(x, w, pairs) && Truthful(x, w) && Enabled(x, w, a) && Clear(x, w, a)
    ensures Truthful(x, Apply(x, w, a))
  {
    hide UpSync, Tidy, InSync, Copies, NoCollision, Transcript, Hears;
    var w' := Apply(x, w, a);
    CopiesStep(x, w, a, pairs);
    LockstepStep(x, w, a, pairs);
    if a.ClientTake? {
      if w.raced {
        DownIsNotPadding(x, w);
        TruthfulReads(x, w);
      } else {
        InSyncIsPrefix(x, w', pairs);
      }
    } else {
      OthersAreNotHeard(x, w, a);
    }
  }

  lemma {:induction false} BuiltTruthful(x: Circ, pairs: seq<Pair>)
    requires |pairs| >= 2
    ensures Truthful(x, Built(pairs))
  {
  }

  /** In every state of every run in which what the client compares does not collide, the client has
      accepted a prefix of what the exit sealed. */
  lemma {:induction false} TruthfulRun(x: Circ, w: World, actions: seq<Action>, pairs: seq<Pair>)
    requires Lockstep(x, w, pairs) && Truthful(x, w) && Run(x, w, actions).Some? && HearsClearly(x, w, actions)
    ensures Truthful(x, Run(x, w, actions).value)
    decreases |actions|
  {
    hide Lockstep, Truthful, Enabled, Apply, Clear;
    if actions != [] {
      LockstepStep(x, w, actions[0], pairs);
      TruthfulStep(x, w, actions[0], pairs);
      TruthfulRun(x, Apply(x, w, actions[0]), actions[1..], pairs);
    }
  }
}
