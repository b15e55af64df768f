/** What becomes of a circuit on which a cell was refused because it does not fit: the exit accepts what was
    sealed before, and nothing after. */
module Refusal {
  import opened Common
  import opened Cells
  import opened Crypto
  import opened Onion
  import opened Pipeline
  import opened Relay
  import opened Exit
  import opened Client
  import opened Network
  import opened Sync
  import opened Runs
  import opened Tamper
  import opened Lines
  import opened Draining

  /** What the exit's digest has absorbed once its next cell is in. */
  function Heard(x: Circ, w: World): seq<byte>
    requires Shape(w) && w.up[|w.up| - 1] != []
  {
    Open(x, w.exit.crypto.value, w.up[|w.up| - 1][0]).0.forward
  }

  /** What the exit compares does not collide with what the client sealed. */
  ghost predicate Unmistaken(x: Circ, w: World, a: Action)
    requires Enabled(x, w, a)
  {
    a.ExitTake? && IsTraffic(w.up[|w.up| - 1][0]) ==> NoCollision(x, w.sent, [Heard(x, w)])
  }

  ghost predicate ComparesClearly(x: Circ, w: World, actions: seq<Action>)
    decreases |actions|
  {
    actions != [] && Enabled(x, w, actions[0]) ==>
      Unmistaken(x, w, actions[0]) && ComparesClearly(x, Apply(x, w, actions[0]), actions[1..])
  }

  /** The cell sealed after `before` was never written: what is on its way to the exit is the rest of
      `before`, and then what was sealed after that cell. */
  ghost predicate Skipped(x: Circ, w: World, before: seq<Plain>) {
    && before < w.sent && w.accepted <= before && AllUp(x, w.up) && w.up != []
    && w.client.forward == Transcript(w.sent, |w.sent|)
    && w.exit.crypto.Some? && w.exit.crypto.value.forward == Transcript(w.accepted, |w.accepted|)
    && Line(w.up) == Expected(x, w.sent, |w.accepted|, |before|) + Expected(x, w.sent, |before| + 1, |w.sent|)
  }

  lemma {:induction false} RefusalSkips(x: Circ, w: World, p: Plain, pairs: seq<Pair>)
    requires Lockstep(x, w, pairs) && |p.data| > MAX_PAYLOAD_SIZE
    ensures Skipped(x, ClientSends(x, w, p), w.sent)
  {
    hide InSync, DownSync, Line, Expected, Frame, Layer;
    LineIsLog(x, UpStations(w), w.up, UpBase(pairs), w.sent, w.accepted);
    UpIsPrefix(x, w, pairs);
    ExpectedGrows(x, w.sent, p, |w.accepted|, |w.sent|);
    NothingExpected(x, w.sent + [p], |w.sent| + 1);
    PrefixStable(w.sent, [p], |w.sent|);
    assert Line(w.up) + [] == Line(w.up);
  }

  lemma {:induction false} UpIsPrefix(x: Circ, w: World, pairs: seq<Pair>)
    requires UpSync(x, w, pairs)
    ensures w.accepted <= w.sent
  {
  }

  lemma {:induction false} NothingExpected(x: Circ, log: seq<Plain>, n: nat)
    requires n <= |log|
    ensures Expected(x, log, n, n) == []
  {
  }

  lemma {:induction false} OneExpected(x: Circ, log: seq<Plain>, n: nat)
    requires n < |log|
    ensures Expected(x, log, n, n + 1) == [Mark(x.hash(Transcript(log, n + 1)), |log[n].data|)]
  {
  }

  /* What every step keeps. */

  lemma {:induction false} SkippedSends(x: Circ, w: World, p: Plain, before: seq<Plain>)
    requires Shape(w) && Skipped(x, w, before) && |p.data| <= MAX_PAYLOAD_SIZE
    requires p.command == Begin || p.command == Data || p.command == End
    ensures Skipped(x, ClientSends(x, w, p), before)
  {
    hide Line, Expected, Layer, Frame, Advance;
    var w', n, layers := ClientSends(x, w, p), |w.sent|, Reverse(Forwards(w.client.ciphers));
    var cell := Seal(x, layers, w.client.forward, p);
    ThroughLength(x.mask, layers, p.data);
    LinePut(w.up, cell);
    ExpectedGrows(x, w.sent, p, |w.accepted|, |before|);
    ExpectedGrows(x, w.sent, p, |before| + 1, n);
    ExpectedSplit(x, w'.sent, |before| + 1, n, n + 1);
    OneExpected(x, w'.sent, n);
    PrefixStable(w.sent, [p], n);
    AllUpPut(x, w.up, 0, cell);
    var a, b := Expected(x, w.sent, |w.accepted|, |before|), Expected(x, w.sent, |before| + 1, n);
    assert (a + b) + [MarkOf(cell)] == a + (b + [MarkOf(cell)]);
  }

  lemma {:induction false} AllUpPut(x: Circ, wires: seq<seq<Message>>, j: nat, m: Message)
    requires AllUp(x, wires) && j < |wires| && UpCell(x, m)
    ensures AllUp(x, Put(wires, j, m))
  {
    forall i, c | 0 <= i < |wires| && c in Put(wires, j, m)[i] ensures UpCell(x, c) {
      assert c in wires[i] || c == m;
    }
  }

  lemma {:induction false} SkippedPads(x: Circ, w: World, bytes: seq<byte>, before: seq<Plain>)
    requires Shape(w) && Skipped(x, w, before) && |bytes| < MAX_PAYLOAD_SIZE
    ensures Skipped(x, Apply(x, w, SendPadding(bytes)), before)
  {
    hide Line, Expected, AllUp;
    var m := CircuitMessage(x.id, Padding, bytes);
    AllUpPut(x, w.up, 0, m);
    PutControl(w.up, 0, m);
    LineOnlyTraffic(Put(w.up, 0, m), w.up);
  }

  lemma {:induction false} SkippedRelays(x: Circ, w: World, i: nat, before: seq<Plain>)
    requires Shape(w) && Skipped(x, w, before) && CanRelayUp(x, w, i)
    ensures Skipped(x, RelayTakes(x, w, i), before)
  {
    hide Line, Expected, AllUp, Layer;
    AllUpTake(x, w.up, i);
    var m, act := w.up[i][0], ForwardStep(x, w.relays[i], w.up[i][0]).1;
    if IsTraffic(m) {
      AllUpPut(x, Take(w.up, i), i + 1, act.cell);
      LineMove(w.up, i, act.cell);
    } else {
      TakeControl(w.up, i);
      LineOnlyTraffic(Take(w.up, i), w.up);
    }
  }

  /** The next cell at the exit is marked as the next one of `before`, or as the one after the gap. */
  lemma {:induction false} NextMark(x: Circ, w: World, before: seq<Plain>) returns (j: nat)
    requires Shape(w) && Skipped(x, w, before) && w.up[|w.up| - 1] != [] && IsTraffic(w.up[|w.up| - 1][0])
    ensures j < |w.sent| && j == if |w.accepted| < |before| then |w.accepted| else |before| + 1
    ensures var m := w.up[|w.up| - 1][0];
            m.digest == x.hash(Transcript(w.sent, j + 1)) && |m.data| == |w.sent[j].data|
    ensures |w.accepted| < |before| ==>
              Line(Take(w.up, |w.up| - 1))
              == Expected(x, w.sent, |w.accepted| + 1, |before|) + Expected(x, w.sent, |before| + 1, |w.sent|)
  {
    hide Line, AllUp, Expected;
    var k, n, m := |w.accepted|, |before|, w.up[|w.up| - 1][0];
    LineTake(w.up);
    var later := Expected(x, w.sent, n + 1, |w.sent|);
    if k < n {
      j := k;
      ExpectedSplit(x, w.sent, k, k + 1, n);
      OneExpected(x, w.sent, k);
      assert Line(w.up)[0] == MarkOf(m) && Line(w.up)[1..] == Line(Take(w.up, |w.up| - 1));
      assert Line(w.up)[1..] == Expected(x, w.sent, k + 1, n) + later;
    } else {
      j := n + 1;
      NothingExpected(x, w.sent, n);
      assert Line(w.up) == later && later[0] == MarkOf(m);
      ExpectedSplit(x, w.sent, n + 1, n + 2, |w.sent|);
      OneExpected(x, w.sent, n + 1);
    }
  }

  /** So a cell that verifies is the next one of `before`. */
  lemma {:induction false} VerifiedIsNext(x: Circ, w: World, before: seq<Plain>)
    requires Shape(w) && Skipped(x, w, before) && w.up[|w.up| - 1] != [] && IsTraffic(w.up[|w.up| - 1][0])
    requires NoCollision(x, w.sent, [Heard(x, w)])
    ensures var k, p := |w.accepted|, Open(x, w.exit.crypto.value, w.up[|w.up| - 1][0]).1;
            p.Some? ==>
              && k < |before| && p.value == w.sent[k] && Heard(x, w) == Transcript(w.sent, k + 1)
              && Line(Take(w.up, |w.up| - 1))
                 == Expected(x, w.sent, k + 1, |before|) + Expected(x, w.sent, |before| + 1, |w.sent|)
  {
    hide Line, AllUp, Expected, Frame, Open;
    var m, k := w.up[|w.up| - 1][0], |w.accepted|;
    var found := Open(x, w.exit.crypto.value, m).1;
    if found.Some? {
      var j := NextMark(x, w, before);
      ExitAbsorbs(x, w.exit.crypto.value, m);
      assert w.sent == w.accepted + w.sent[k..];
      PrefixStable(w.accepted, w.sent[k..], k);
      assert [Heard(x, w)][0] == Heard(x, w);
      assert x.hash(Heard(x, w)) == x.hash(Transcript(w.sent, j + 1));
      OnlyTheNext(w.sent, k, found.value, j);
    }
  }

  /** What an accepted cell does to the forward half. */
  lemma {:induction false} ExitAccepted(x: Circ, w: World, dial: Dial)
    requires Shape(w) && CanExitTake(x, w, dial)
    requires UpCell(x, w.up[|w.up| - 1][0]) && IsTraffic(w.up[|w.up| - 1][0])
    ensures var w', found := ExitTakes(x, w, dial), Open(x, w.exit.crypto.value, w.up[|w.up| - 1][0]).1;
            && found.Some? && w'.accepted == w.accepted + [found.value]
            && w'.sent == w.sent && w'.client == w.client && w'.up == Take(w.up, |w.up| - 1)
            && w'.exit.crypto.Some? && w'.exit.crypto.value.forward == Heard(x, w)
  {
    hide Open, Serve, Seal, Frame, Answer;
    ExitEffect(x, w.exit, w.up[|w.up| - 1][0], dial);
  }

  lemma {:induction false} SkippedExit(x: Circ, w: World, dial: Dial, before: seq<Plain>)
    requires Shape(w) && Skipped(x, w, before) && CanExitTake(x, w, dial)
    requires IsTraffic(w.up[|w.up| - 1][0]) ==> NoCollision(x, w.sent, [Heard(x, w)])
    ensures Skipped(x, ExitTakes(x, w, dial), before)
  {
    hide Line, AllUp, Expected, Open, NoCollision, Heard;
    var k := |w.accepted|;
    AllUpTake(x, w.up, |w.up| - 1);
    if IsTraffic(w.up[|w.up| - 1][0]) {
      hide ExitTakes, ExitStep, Transcript;
      VerifiedIsNext(x, w, before);
      ExitAccepted(x, w, dial);
      var w' := ExitTakes(x, w, dial);
      assert w'.accepted == w.sent[..k + 1] && w.sent == w'.accepted + w.sent[k + 1..];
      PrefixStable(w'.accepted, w.sent[k + 1..], k + 1);
    } else {
      TakeControl(w.up, |w.up| - 1);
      LineOnlyTraffic(Take(w.up, |w.up| - 1), w.up);
    }
  }

  lemma {:induction false} SkippedStays(x: Circ, w: World, w': World, before: seq<Plain>)
    requires Skipped(x, w, before) && w'.up == w.up && w'.sent == w.sent && w'.accepted == w.accepted
    requires w'.client.forward == w.client.forward && w'.exit.crypto.Some?
    requires w'.exit.crypto.value.forward == w.exit.crypto.value.forward
    ensures Skipped(x, w', before)
  {
    hide Line, AllUp, Expected, Transcript;
  }

  lemma {:induction false} SkippedElsewhere(x: Circ, w: World, a: Action, before: seq<Plain>)
    requires Enabled(x, w, a) && Skipped(x, w, before)
    requires !a.SendBegin? && !a.SendChunk? && !a.SendEnd? && !a.SendPadding? && !a.RelayUp? && !a.ExitTake?
    ensures Skipped(x, Apply(x, w, a), before)
  {
    hide Skipped, Seal, Layer, Unwrap, Frame;
    assert w.exit.crypto.Some?;
    SkippedStays(x, w, Apply(x, w, a), before);
  }

  ghost predicate ShortNames(w: World) {
    forall s {:trigger w.local[s]} :: s in w.local ==> |w.local[s].destination| < MAX_PAYLOAD_SIZE
  }

  lemma {:induction false} NamesStayShort(x: Circ, w: World, a: Action)
    requires Enabled(x, w, a) && ShortNames(w)
    ensures ShortNames(Apply(x, w, a))
  {
    hide Emit, ExitStep, ForwardStep, BackwardStep, ClientSends, ClientTakes;
    if a.SendBegin? || a.SendChunk? || a.SendEnd? {
      hide Apply;
      SendTurns(x, w, a);
      SendsNoNames(x, w, SentBy(w, a));
    } else if a.ClientTake? {
      TakesNoNames(x, w);
    }
  }

  lemma {:induction false} SendsNoNames(x: Circ, w: World, p: Plain)
    requires Shape(w)
    ensures ClientSends(x, w, p).local == w.local
  {
  }

  lemma {:induction false} TakesNoNames(x: Circ, w: World)
    requires Shape(w) && w.down[|w.down| - 1] != [] && ShortNames(w)
    ensures ShortNames(ClientTakes(x, w))
  {
    hide ClientReceive;
  }

  lemma {:induction false} SkippedSending(x: Circ, w: World, a: Action, before: seq<Plain>)
    requires Enabled(x, w, a) && Skipped(x, w, before) && ShortNames(w)
    requires a.SendBegin? || a.SendChunk? || a.SendEnd?
    ensures Skipped(x, Apply(x, w, a), before)
  {
    hide Skipped, ClientSends, Apply;
    SendTurns(x, w, a);
    var sent := ClientSends(x, w, SentBy(w, a));
    SkippedSends(x, w, SentBy(w, a), before);
    SkippedLocal(x, sent, Apply(x, w, a), before);
  }

  lemma {:induction false} SkippedLocal(x: Circ, w: World, w': World, before: seq<Plain>)
    requires Skipped(x, w, before) && w' == w.(local := w'.local)
    ensures Skipped(x, w', before)
  {
    hide Line, AllUp, Expected, Transcript;
  }

  lemma {:induction false} SkippedStep(x: Circ, w: World, a: Action, before: seq<Plain>)
    requires Enabled(x, w, a) && Skipped(x, w, before) && ShortNames(w) && Unmistaken(x, w, a)
    ensures Skipped(x, Apply(x, w, a), before) && ShortNames(Apply(x, w, a))
  {
    NamesStayShort(x, w, a);
    hide Skipped, ShortNames, CanRelayUp, CanExitTake, CanRelayDown, NoCollision;
    match a {
      case SendBegin(_) => SkippedSending(x, w, a, before);
      case SendChunk(_) => SkippedSending(x, w, a, before);
      case SendEnd(_) => SkippedSending(x, w, a, before);
      case SendPadding(bytes) => SkippedPads(x, w, bytes, before);
      case RelayUp(i) => SkippedRelays(x, w, i, before);
      case ExitTake(dial) => SkippedExit(x, w, dial, before);
      case _ => SkippedElsewhere(x, w, a, before);
    }
  }

  lemma {:induction false} SkippedRun(x: Circ, w: World, actions: seq<Action>, before: seq<Plain>)
    requires Skipped(x, w, before) && ShortNames(w) && Run(x, w, actions).Some? && ComparesClearly(x, w, actions)
    ensures Skipped(x, Run(x, w, actions).value, before)
    decreases |actions|
  {
    hide Skipped, ShortNames, Enabled, Apply, Unmistaken;
    if actions != [] {
      SkippedStep(x, w, actions[0], before);
      SkippedRun(x, Apply(x, w, actions[0]), actions[1..], before);
    }
  }

  lemma {:induction false} SkippedRejects(x: Circ, w: World, before: seq<Plain>, dial: Dial)
    requires Shape(w) && Skipped(x, w, before) && w.accepted == before
    requires w.up[|w.up| - 1] != [] && IsTraffic(w.up[|w.up| - 1][0]) && NoCollision(x, w.sent, [Heard(x, w)])
    ensures var m := w.up[|w.up| - 1][0];
            m.command != Create && ExitStep(x, w.exit, m, dial).1 == ExitAction.Failed(DigestMismatch)
  {
    hide Line, Expected, Open, NoCollision, Serve, Transcript;
    AllUpTake(x, w.up, |w.up| - 1);
    VerifiedIsNext(x, w, before);
  }

  /** In every run after a refused send: the exit accepts a prefix of what was sent before it, and when it has
      accepted all of that, it rejects whatever cell reaches it next, and stops. */
  lemma {:induction false} RefusalStopsExit(x: Circ, pairs: seq<Pair>, actions: seq<Action>, w: World, p: Plain,
      more: seq<Action>, w': World, dial: Dial)
    requires |pairs| >= 2 && Run(x, Built(pairs), actions) == Some(w) && Shape(w) && |p.data| > MAX_PAYLOAD_SIZE
    requires Run(x, ClientSends(x, w, p), more) == Some(w') && ComparesClearly(x, ClientSends(x, w, p), more)
    ensures w'.accepted <= w.sent < w'.sent
    ensures w'.accepted == w.sent && Shape(w') && w'.up[|w'.up| - 1] != [] && IsTraffic(w'.up[|w'.up| - 1][0])
            && NoCollision(x, w'.sent, [Heard(x, w')]) ==>
              var m := w'.up[|w'.up| - 1][0];
              m.command != Create && ExitStep(x, w'.exit, m, dial).1 == ExitAction.Failed(DigestMismatch)
  {
    hide UpSync, DownSync, Run, Built, ComparesClearly, NoCollision, ExitStep, Heard;
    BuiltLockstep(x, pairs);
    LockstepRun(x, Built(pairs), actions, pairs);
    RefusalSkips(x, w, p, pairs);
    NamesAreShort(x, w, p);
    SkippedRun(x, ClientSends(x, w, p), more, w.sent);
    SkippedBounds(x, w', w.sent);
    if w'.accepted == w.sent && Shape(w') && w'.up[|w'.up| - 1] != [] && IsTraffic(w'.up[|w'.up| - 1][0])
       && NoCollision(x, w'.sent, [Heard(x, w')]) {
      SkippedRejects(x, w', w.sent, dial);
    }
  }

  lemma {:induction false} NamesAreShort(x: Circ, w: World, p: Plain)
    requires Tidy(x, w)
    ensures ShortNames(ClientSends(x, w, p))
  {
  }

  lemma {:induction false} SkippedBounds(x: Circ, w: World, before: seq<Plain>)
    requires Skipped(x, w, before)
    ensures w.accepted <= before < w.sent
  {
  }

  /* And it can accept all of it. */

  /** `v` is `w` but for what the client knows of its keys and of what it sealed. */
  ghost predicate Mirrors(w: World, v: World) {
    v == w.(client := v.client, sent := v.sent) && |v.client.ciphers| == |w.client.ciphers|
  }

  lemma {:induction false} MirrorStep(x: Circ, w: World, v: World, a: Action)
    requires Mirrors(w, v) && Enabled(x, w, a) && (a.RelayUp? || a.ExitTake? || a.WriteReply?)
    ensures Enabled(x, v, a) && Mirrors(Apply(x, w, a), Apply(x, v, a))
  {
    hide ForwardStep, ExitStep, ExitAnswer, Open;
  }

  lemma {:induction false} MirrorRun(x: Circ, w: World, v: World, actions: seq<Action>) returns (v': World)
    requires Mirrors(w, v) && Run(x, w, actions).Some?
    requires forall a :: a in actions ==> a.RelayUp? || a.ExitTake? || a.WriteReply?
    ensures Run(x, v, actions) == Some(v') && Mirrors(Run(x, w, actions).value, v')
    decreases |actions|
  {
    hide Mirrors, Enabled, Apply;
    if actions == [] {
      v' := v;
    } else {
      MirrorStep(x, w, v, actions[0]);
      v' := MirrorRun(x, Apply(x, w, actions[0]), Apply(x, v, actions[0]), actions[1..]);
    }
  }

  /** After a refused send there is a run in which the relays and the exit alone finish with all that was sent
      before it. */
  lemma {:induction false} SentBeforeArrives(x: Circ, w: World, p: Plain, dial: Dial, pairs: seq<Pair>)
    returns (more: seq<Action>, w': World)
    requires Lockstep(x, w, pairs) && |p.data| > MAX_PAYLOAD_SIZE && Dials(dial)
    ensures Run(x, ClientSends(x, w, p), more) == Some(w') && w'.accepted == w.sent && EmptyWires(w'.up)
  {
    hide Lockstep, EmptyWires, Layer, Frame, Run;
    ShapeIs(x, w, pairs);
    var drained;
    more, drained := DrainUp(x, w, dial, pairs);
    w' := MirrorRun(x, w, ClientSends(x, w, p), more);
  }
}
