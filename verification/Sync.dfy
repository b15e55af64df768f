/** Keystream positions and digests of all parties agree in every reachable state of a circuit. */
module Sync {
  import opened Common
  import opened Cells
  import opened Crypto
  import opened Onion
  import opened Pipeline
  import opened Relay
  import opened Exit
  import opened Client
  import opened Network

  /** The forward line: the client's layers, exit's first, then one layer at every hop. */
  function UpStations(w: World): seq<seq<Cipher>>
    requires Shape(w)
  {
    var n := |w.relays| + 1;
    seq(n + 1, j requires 0 <= j < n + 1 =>
      if j == 0 then Reverse(Forwards(w.client.ciphers))
      else if j < n then [w.relays[j - 1].cipher.value.forward]
      else [w.exit.crypto.value.pair.forward])
  }

  /** The backward line: one layer at every hop, exit first, then the client's layers, entry's first. */
  function DownStations(w: World): seq<seq<Cipher>>
    requires Shape(w)
  {
    var n := |w.relays| + 1;
    seq(n + 1, j requires 0 <= j < n + 1 =>
      if j == 0 then [w.exit.crypto.value.pair.backward]
      else if j < n then [w.relays[n - 1 - j].cipher.value.backward]
      else Backwards(w.client.ciphers))
  }

  /** A sealed reply counts as already on its wire. */
  function WithReply(down: seq<seq<Message>>, reply: Option<Message>): (r: seq<seq<Message>>)
    requires |down| > 0
    ensures |r| == |down|
  {
    if reply.Some? then Put(down, 0, reply.value) else down
  }

  function DownWires(w: World): seq<seq<Message>>
    requires Shape(w)
  {
    WithReply(w.down, w.reply)
  }

  lemma {:induction false} WithReplyTake(down: seq<seq<Message>>, reply: Option<Message>, j: nat)
    requires j < |down| && down[j] != []
    ensures WithReply(down, reply)[j] != [] && WithReply(down, reply)[j][0] == down[j][0]
    ensures WithReply(Take(down, j), reply) == Take(WithReply(down, reply), j)
  {
    if reply.Some? && j == 0 {
      assert (down[0] + [reply.value])[1..] == down[0][1..] + [reply.value];
    }
  }

  lemma {:induction false} WithReplyPut(down: seq<seq<Message>>, reply: Option<Message>, j: nat, m: Message)
    requires 0 < j < |down|
    ensures WithReply(Put(down, j, m), reply) == Put(WithReply(down, reply), j, m)
  {
  }

  function UpBase(pairs: seq<Pair>): seq<seq<Cipher>> {
    seq(|pairs| + 1, j requires 0 <= j < |pairs| + 1 =>
      if j == 0 then Reverse(Forwards(pairs)) else [pairs[j - 1].forward])
  }

  function DownBase(pairs: seq<Pair>): seq<seq<Cipher>> {
    seq(|pairs| + 1, j requires 0 <= j < |pairs| + 1 =>
      if j < |pairs| then [pairs[|pairs| - 1 - j].backward] else Backwards(pairs))
  }

  /** After hop `j` the layers of the hops up to it are still to be cancelled by nobody: they are the
      client's layers followed by theirs. */
  lemma {:induction false} UpLayers(pairs: seq<Pair>, j: nat)
    requires j <= |pairs|
    ensures Upto(UpBase(pairs), j) == Reverse(Forwards(pairs)) + Forwards(pairs)[..j]
  {
    var fs := Forwards(pairs);
    if j == 0 {
      assert fs[..0] == [] && Reverse(fs) + [] == Reverse(fs);
    } else {
      UpLayers(pairs, j - 1);
      assert fs[..j] == fs[..j - 1] + [pairs[j - 1].forward];
    }
  }

  lemma {:induction false} DownLayers(pairs: seq<Pair>, j: nat)
    requires j < |pairs|
    ensures Upto(DownBase(pairs), j) == Reverse(Backwards(pairs))[..j + 1]
  {
    var r := Reverse(Backwards(pairs));
    if j == 0 {
      assert r[..1] == [pairs[|pairs| - 1].backward];
    } else {
      DownLayers(pairs, j - 1);
      assert r[..j + 1] == r[..j] + [pairs[|pairs| - 1 - j].backward];
    }
  }

  /** A cell that has been past every station of either line has all its layers off. */
  lemma {:induction false} LayersOff(x: Circ, cs: seq<Cipher>, log: seq<Plain>, k: nat)
    requires k < |log|
    ensures Sealed(x, Reverse(cs) + cs, log, k).data == log[k].data
  {
    var t := Total(log, k);
    assert Advance(Reverse(cs) + cs, t) == Reverse(Advance(cs, t)) + Advance(cs, t);
    LayersCancel(x.mask, Advance(cs, t), log[k].data);
  }

  lemma {:induction false} UpOpens(x: Circ, pairs: seq<Pair>, log: seq<Plain>, k: nat)
    requires k < |log|
    ensures Sealed(x, Upto(UpBase(pairs), |pairs|), log, k).data == log[k].data
  {
    UpLayers(pairs, |pairs|);
    assert Forwards(pairs)[..|pairs|] == Forwards(pairs);
    LayersOff(x, Forwards(pairs), log, k);
  }

  lemma {:induction false} DownOpens(x: Circ, pairs: seq<Pair>, log: seq<Plain>, k: nat)
    requires k < |log| && pairs != []
    ensures Sealed(x, Upto(DownBase(pairs), |pairs|), log, k).data == log[k].data
  {
    DownLayers(pairs, |pairs| - 1);
    assert Reverse(Backwards(pairs))[..|pairs|] == Reverse(Backwards(pairs));
    LayersOff(x, Backwards(pairs), log, k);
  }

  /** The forward line is in step, and both ends have absorbed what they sealed and accepted. */
  ghost predicate UpSync(x: Circ, w: World, pairs: seq<Pair>) {
    && Shape(w)
    && InSync(x, UpStations(w), w.up, UpBase(pairs), w.sent, w.accepted)
    && w.client.forward == Transcript(w.sent, |w.sent|)
    && w.exit.crypto.value.forward == Transcript(w.accepted, |w.accepted|)
  }

  ghost predicate DownSync(x: Circ, w: World, pairs: seq<Pair>) {
    && Shape(w)
    && InSync(x, DownStations(w), DownWires(w), DownBase(pairs), w.emitted, w.delivered)
    && w.exit.crypto.value.backward == Transcript(w.emitted, |w.emitted|)
    && w.client.backward == Transcript(w.delivered, |w.delivered|)
  }

  predicate UpCell(x: Circ, m: Message) {
    m.circuit == x.id && m.Fits()
        && (m.command == Begin || m.command == Data || m.command == End || m.command == Padding)
  }

  predicate DownCell(x: Circ, m: Message) {
    && m.circuit == x.id && m.Fits()
    && (m.command == Connected || m.command == Data || m.command == End || (m.command == Destroy && m.data == []))
  }

  ghost predicate AllUp(x: Circ, wires: seq<seq<Message>>) {
    forall j, m {:trigger m in wires[j]} :: 0 <= j < |wires| && m in wires[j] ==> UpCell(x, m)
  }

  ghost predicate AllDown(x: Circ, wires: seq<seq<Message>>) {
    forall j, m {:trigger m in wires[j]} :: 0 <= j < |wires| && m in wires[j] ==> DownCell(x, m)
  }

  /** Only these cells are ever on the wires, and all of them fit in a wire cell. */
  ghost predicate Tidy(x: Circ, w: World) {
    && Shape(w)
    && AllUp(x, w.up) && AllDown(x, w.down)
    && (w.reply.Some? ==> DownCell(x, w.reply.value) && IsTraffic(w.reply.value))
    && (forall s :: s in w.local ==> |w.local[s].destination| < MAX_PAYLOAD_SIZE)
  }

  lemma {:induction false} AllUpTake(x: Circ, wires: seq<seq<Message>>, j: nat)
    requires AllUp(x, wires) && j < |wires| && wires[j] != []
    ensures AllUp(x, Take(wires, j)) && UpCell(x, wires[j][0])
  {
    assert wires[j][0] in wires[j];
    forall i, m | 0 <= i < |wires| && m in Take(wires, j)[i] ensures UpCell(x, m) {
      assert m in wires[i];
    }
  }

  lemma {:induction false} AllDownTake(x: Circ, wires: seq<seq<Message>>, j: nat)
    requires AllDown(x, wires) && j < |wires| && wires[j] != []
    ensures AllDown(x, Take(wires, j)) && DownCell(x, wires[j][0])
  {
    assert wires[j][0] in wires[j];
    forall i, m | 0 <= i < |wires| && m in Take(wires, j)[i] ensures DownCell(x, m) {
      assert m in wires[i];
    }
  }

  /** Actions that touch nothing of the backward line. */
  lemma {:induction false} DownFrame(x: Circ, w: World, w': World, pairs: seq<Pair>)
    requires DownSync(x, w, pairs) && Shape(w')
    requires DownStations(w') == DownStations(w) && w'.down == w.down && w'.reply == w.reply
    requires w'.emitted == w.emitted && w'.delivered == w.delivered && w'.client.backward == w.client.backward
    requires w'.exit.crypto.value.backward == w.exit.crypto.value.backward
    ensures DownSync(x, w', pairs)
  {
    hide InSync;
  }

  /** Actions that touch nothing of the forward line. */
  lemma {:induction false} UpFrame(x: Circ, w: World, w': World, pairs: seq<Pair>)
    requires UpSync(x, w, pairs) && Shape(w')
    requires UpStations(w') == UpStations(w) && w'.up == w.up && w'.sent == w.sent && w'.accepted == w.accepted
    requires w'.client.forward == w.client.forward
    requires w'.exit.crypto.value.forward == w.exit.crypto.value.forward
    ensures UpSync(x, w', pairs)
  {
    hide InSync;
  }

  lemma {:induction false} SendStations(x: Circ, w: World, p: Plain)
    requires Shape(w)
    ensures Shape(ClientSends(x, w, p))
    ensures UpStations(ClientSends(x, w, p)) == UpStations(w)[0 := Advance(UpStations(w)[0], |p.data|)]
    ensures DownStations(ClientSends(x, w, p)) == DownStations(w)
  {
    assert Backwards(ClientSends(x, w, p).client.ciphers) == Backwards(w.client.ciphers);
    assert Reverse(Forwards(ClientSends(x, w, p).client.ciphers)) == Advance(UpStations(w)[0], |p.data|);
  }

  lemma {:induction false} UpSends(x: Circ, w: World, p: Plain, pairs: seq<Pair>)
    requires UpSync(x, w, pairs) && |p.data| <= MAX_PAYLOAD_SIZE
    requires p.command != Padding && p.command != Destroy
    ensures UpSync(x, ClientSends(x, w, p), pairs)
  {
    hide InSync;
    SendStations(x, w, p);
    SendSync(x, UpStations(w), w.up, UpBase(pairs), w.sent, w.accepted, p, ClientSends(x, w, p).up);
    PrefixStable(w.sent, [p], |w.sent|);
  }

  lemma {:induction false} UpControl(x: Circ, w: World, w': World, pairs: seq<Pair>)
    requires UpSync(x, w, pairs) && Shape(w') && |w'.up| == |w.up|
    requires UpStations(w') == UpStations(w) && w'.sent == w.sent && w'.accepted == w.accepted
    requires forall j :: 0 <= j < |w.up| ==> Traffic(w'.up[j]) == Traffic(w.up[j])
    requires w'.client.forward == w.client.forward && w'.exit.crypto.value.forward == w.exit.crypto.value.forward
    ensures UpSync(x, w', pairs)
  {
    hide InSync;
    ControlSync(x, UpStations(w), w.up, UpBase(pairs), w.sent, w.accepted, w'.up);
  }

  /** Replacing one relay's state replaces its two stations. */
  lemma {:induction false} RelayStations(w: World, w': World, i: nat, p: Pair)
    requires Shape(w) && i < |w.relays| && |w'.relays| == |w.relays|
    requires w'.relays == w.relays[i := w.relays[i].(cipher := Some(p))]
    requires w'.client.ciphers == w.client.ciphers && w'.exit.crypto == w.exit.crypto
    requires |w'.up| == |w.up| && |w'.down| == |w.down|
    ensures Shape(w')
    ensures UpStations(w') == UpStations(w)[i + 1 := [p.forward]]
    ensures DownStations(w') == DownStations(w)[|w.relays| - i := [p.backward]]
  {
  }

  lemma {:induction false} TakeControl(wires: seq<seq<Message>>, j: nat)
    requires j < |wires| && wires[j] != [] && !IsTraffic(wires[j][0])
    ensures forall i :: 0 <= i < |wires| ==> Traffic(Take(wires, j)[i]) == Traffic(wires[i])
  {
    assert Traffic(wires[j]) == Traffic(wires[j][1..]);
  }

  lemma {:induction false} PutControl(wires: seq<seq<Message>>, j: nat, m: Message)
    requires j < |wires| && !IsTraffic(m)
    ensures forall i :: 0 <= i < |wires| ==> Traffic(Put(wires, j, m)[i]) == Traffic(wires[i])
  {
    TrafficSnoc(wires[j], m);
  }

  /** A relay drops PADDING. */
  lemma {:induction false} UpDrops(x: Circ, w: World, i: nat, pairs: seq<Pair>)
    requires UpSync(x, w, pairs) && CanRelayUp(x, w, i) && w.up[i][0].command == Padding
    ensures UpSync(x, RelayTakes(x, w, i), pairs)
    ensures DownStations(RelayTakes(x, w, i)) == DownStations(w)
  {
    hide InSync;
    var w' := RelayTakes(x, w, i);
    assert w'.relays == w.relays;
    assert UpStations(w') == UpStations(w) && DownStations(w') == DownStations(w);
    TakeControl(w.up, i);
    UpControl(x, w, w', pairs);
  }

  /** A relay peels its layer off anything else and passes it on. */
  lemma {:induction false} UpPasses(x: Circ, w: World, i: nat, pairs: seq<Pair>)
    requires UpSync(x, w, pairs) && CanRelayUp(x, w, i)
    requires UpCell(x, w.up[i][0]) && w.up[i][0].command != Padding
    ensures UpSync(x, RelayTakes(x, w, i), pairs)
    ensures DownStations(RelayTakes(x, w, i)) == DownStations(w)
  {
    hide InSync;
    var w', cell, r := RelayTakes(x, w, i), w.up[i][0], w.relays[i];
    var c := r.cipher.value.forward;
    OneLayer(x, c, cell);
    RelayStations(w, w', i, r.cipher.value.(forward := Skip(c, |cell.data|)));
    assert Advance([c], |cell.data|) == [Skip(c, |cell.data|)];
    PassSync(x, UpStations(w), w.up, UpBase(pairs), w.sent, w.accepted, i + 1, w'.up);
  }

  /** The exit gets back exactly the next cell the client sent, and its digest verifies. */
  lemma {:induction false} ExitOpens(x: Circ, w: World, pairs: seq<Pair>)
    requires UpSync(x, w, pairs) && |pairs| == |w.relays| + 1
    requires var wire := w.up[|w.up| - 1]; wire != [] && IsTraffic(wire[0])
    ensures var k := |w.accepted|;
            && w.accepted <= w.sent && k < |w.sent|
            && Open(x, w.exit.crypto.value, w.up[|w.up| - 1][0]).1 == Some(w.sent[k])
            && Open(x, w.exit.crypto.value, w.up[|w.up| - 1][0]).0.forward == Transcript(w.sent, k + 1)
            && |w.up[|w.up| - 1][0].data| == |w.sent[k].data|
  {
    hide InSync;
    var n, k, msg, c := |w.up|, |w.accepted|, w.up[|w.up| - 1][0], w.exit.crypto.value.pair.forward;
    NextArrival(x, UpStations(w), w.up, UpBase(pairs), w.sent, w.accepted);
    OneLayer(x, c, msg);
    assert UpStations(w)[n] == [c];
    UpOpens(x, pairs, w.sent, k);
    PrefixStable(w.accepted, w.sent[k..], k);
    assert w.sent == w.accepted + w.sent[k..];
  }

  /** Setting the exit's crypto state replaces its two stations. */
  lemma {:induction false} ExitStations(w: World, w': World, c: ExitCrypto)
    requires Shape(w) && w'.exit.crypto == Some(c)
    requires w'.relays == w.relays && w'.client.ciphers == w.client.ciphers
    requires |w'.up| == |w.up| && |w'.down| == |w.down|
    ensures Shape(w')
    ensures UpStations(w') == UpStations(w)[|w.up| := [c.pair.forward]]
    ensures DownStations(w') == DownStations(w)[0 := [c.pair.backward]]
  {
  }

  /** What accepting the next cell leaves in the exit's forward half. */
  lemma {:induction false} ExitAdvances(x: Circ, w: World, dial: Dial, pairs: seq<Pair>)
    requires UpSync(x, w, pairs) && CanExitTake(x, w, dial) && |pairs| == |w.relays| + 1
    requires UpCell(x, w.up[|w.up| - 1][0]) && IsTraffic(w.up[|w.up| - 1][0])
    ensures var w', c := ExitTakes(x, w, dial), w.exit.crypto.value;
            && |w.accepted| < |w.sent| && w'.accepted == w.accepted + [w.sent[|w.accepted|]]
            && w'.exit.crypto.Some?
            && w'.exit.crypto.value.forward == Transcript(w'.accepted, |w'.accepted|)
            && w'.exit.crypto.value.pair.forward == Skip(c.pair.forward, |w.up[|w.up| - 1][0].data|)
  {
    hide InSync, Transcript, Layer, Frame, Serve, Answer, Seal;
    var w', k := ExitTakes(x, w, dial), |w.accepted|;
    ExitOpens(x, w, pairs);
    ExitEffect(x, w.exit, w.up[|w.up| - 1][0], dial);
    hide ExitStep, ExitAnswer;
    assert w.sent == w'.accepted + w.sent[k + 1..];
    PrefixStable(w'.accepted, w.sent[k + 1..], k + 1);
  }

  lemma {:induction false} UpArrives(x: Circ, w: World, dial: Dial, pairs: seq<Pair>)
    requires UpSync(x, w, pairs) && CanExitTake(x, w, dial) && |pairs| == |w.relays| + 1
    requires UpCell(x, w.up[|w.up| - 1][0]) && IsTraffic(w.up[|w.up| - 1][0])
    ensures UpSync(x, ExitTakes(x, w, dial), pairs)
  {
    hide InSync;
    var w', n, c := ExitTakes(x, w, dial), |w.up|, w.exit.crypto.value.pair.forward;
    ExitAdvances(x, w, dial, pairs);
    ExitStations(w, w', w'.exit.crypto.value);
    ArriveSync(x, UpStations(w), w.up, UpBase(pairs), w.sent, w.accepted, w'.up);
    assert UpStations(w)[n] == [c];
    assert Advance([c], |w.up[n - 1][0].data|) == [w'.exit.crypto.value.pair.forward];
  }

  /** The exit seals a cell with no reply waiting. */
  lemma {:induction false} DownEmits(x: Circ, w: World, w': World, p: Plain, pairs: seq<Pair>)
    requires DownSync(x, w, pairs) && w.reply.None?
    requires p.command != Padding && p.command != Destroy
    requires w'.exit.crypto.Some? && w'.relays == w.relays && w'.client == w.client
    requires |w'.up| == |w.up| && |w'.down| == |w.down| && Shape(w')
    requires var c, c' := w.exit.crypto.value, w'.exit.crypto.value;
             && c'.pair.backward == Skip(c.pair.backward, |p.data|)
             && c'.backward == c.backward + Frame(p.stream, p.command, p.data)
             && DownWires(w') == Put(w.down, 0, Seal(x, [c.pair.backward], c.backward, p))
    requires w'.emitted == w.emitted + [p] && w'.delivered == w.delivered
    ensures DownSync(x, w', pairs)
  {
    hide InSync;
    var c := w.exit.crypto.value.pair.backward;
    ExitStations(w, w', w'.exit.crypto.value);
    assert DownStations(w)[0] == [c];
    assert Advance([c], |p.data|) == [w'.exit.crypto.value.pair.backward];
    SendSync(x, DownStations(w), w.down, DownBase(pairs), w.emitted, w.delivered, p, DownWires(w'));
    PrefixStable(w.emitted, [p], |w.emitted|);
  }

  lemma {:induction false} DownAnswers(x: Circ, w: World, dial: Dial, pairs: seq<Pair>)
    requires DownSync(x, w, pairs) && CanExitTake(x, w, dial)
    requires UpCell(x, w.up[|w.up| - 1][0]) && IsTraffic(w.up[|w.up| - 1][0])
    ensures DownSync(x, ExitTakes(x, w, dial), pairs)
  {
    hide InSync;
    var w', msg := ExitTakes(x, w, dial), w.up[|w.up| - 1][0];
    ExitEffect(x, w.exit, msg, dial);
    var answer := ExitAnswer(x, w.exit, msg, dial);
    ExitStations(w, w', w'.exit.crypto.value);
    if answer.Some? {
      DownEmits(x, w, w', answer.value, pairs);
    } else {
      assert DownStations(w') == DownStations(w);
      DownFrame(x, w, w', pairs);
    }
  }

  lemma {:induction false} DownControl(x: Circ, w: World, w': World, pairs: seq<Pair>)
    requires DownSync(x, w, pairs) && Shape(w') && |w'.down| == |w.down|
    requires DownStations(w') == DownStations(w) && w'.emitted == w.emitted && w'.delivered == w.delivered
    requires forall j :: 0 <= j < |w.down| ==> Traffic(DownWires(w')[j]) == Traffic(DownWires(w)[j])
    requires w'.client.backward == w.client.backward && w'.exit.crypto.value.backward == w.exit.crypto.value.backward
    ensures DownSync(x, w', pairs)
  {
    hide InSync;
    ControlSync(x, DownStations(w), DownWires(w), DownBase(pairs), w.emitted, w.delivered, DownWires(w'));
  }

  lemma {:induction false} WithReplyControl(down: seq<seq<Message>>, down': seq<seq<Message>>, reply: Option<Message>)
    requires |down| == |down'| > 0
    requires forall j :: 0 <= j < |down| ==> Traffic(down'[j]) == Traffic(down[j])
    ensures forall j :: 0 <= j < |down| ==>
                          Traffic(WithReply(down', reply)[j]) == Traffic(WithReply(down, reply)[j])
  {
    if reply.Some? {
      TrafficAppend(down[0], [reply.value]);
      TrafficAppend(down'[0], [reply.value]);
    }
  }

  /** A DESTROY injected on a backward wire. */
  lemma {:induction false} DownTears(x: Circ, w: World, j: nat, pairs: seq<Pair>)
    requires DownSync(x, w, pairs) && j < |w.down|
    ensures DownSync(x, Apply(x, w, TearDown(j)), pairs)
    ensures UpStations(Apply(x, w, TearDown(j))) == UpStations(w)
  {
    hide InSync;
    var w' := Apply(x, w, TearDown(j));
    PutControl(w.down, j, CircuitMessage(x.id, Destroy, []));
    WithReplyControl(w.down, w'.down, w.reply);
    assert DownStations(w') == DownStations(w) && UpStations(w') == UpStations(w);
    DownControl(x, w, w', pairs);
  }

  /** A relay passes a DESTROY on; with no payload there is no keystream to spend. */
  lemma {:induction false} DownDestroys(x: Circ, w: World, i: nat, pairs: seq<Pair>)
    requires Shape(w) && CanRelayDown(x, w, i)
    requires var m := w.down[|w.relays| - 1 - i][0]; m.command == Destroy && m.data == []
    requires DownSync(x, w, pairs)
    ensures DownSync(x, RelayReturns(x, w, i), pairs)
  {
    hide InSync;
    var w', j := RelayReturns(x, w, i), |w.relays| - 1 - i;
    var on := BackwardStep(x, w.relays[i], w.down[j][0]).1.cell;
    assert w'.relays == w.relays;
    assert DownStations(w') == DownStations(w);
    TakeControl(w.down, j);
    PutControl(Take(w.down, j), j + 1, on);
    WithReplyControl(w.down, w'.down, w.reply);
    DownControl(x, w, w', pairs);
  }

  /** A relay puts its layer on anything else and passes it back. */
  lemma {:induction false} DownPasses(x: Circ, w: World, i: nat, pairs: seq<Pair>)
    requires Shape(w) && CanRelayDown(x, w, i)
    requires IsTraffic(w.down[|w.relays| - 1 - i][0])
    requires DownSync(x, w, pairs)
    ensures DownSync(x, RelayReturns(x, w, i), pairs)
  {
    hide InSync, Advance;
    var w', j, r := RelayReturns(x, w, i), |w.relays| - 1 - i, w.relays[i];
    var cell, c := w.down[j][0], r.cipher.value.backward;
    OneLayer(x, c, cell);
    RelayStations(w, w', i, r.cipher.value.(backward := Skip(c, |cell.data|)));
    assert Advance([c], |cell.data|) == [Skip(c, |cell.data|)];
    WithReplyTake(w.down, w.reply, j);
    WithReplyPut(Take(w.down, j), w.reply, j + 1, cell.(data := Layer(x.mask, c, cell.data)));
    PassSync(x, DownStations(w), DownWires(w), DownBase(pairs), w.emitted, w.delivered, j + 1, DownWires(w'));
  }

  /** The client gets back exactly the next cell the exit sealed, and its digest verifies. */
  lemma {:induction false} ClientOpens(x: Circ, w: World, pairs: seq<Pair>)
    requires DownSync(x, w, pairs) && |pairs| == |w.relays| + 1
    requires w.down[|w.down| - 1] != [] && IsTraffic(w.down[|w.down| - 1][0])
    ensures var k, cell := |w.delivered|, w.down[|w.down| - 1][0];
            && w.delivered <= w.emitted && k < |w.emitted| && |cell.data| == |w.emitted[k].data|
            && Plain(cell.stream, cell.command, Unwrap(x.mask, w.client.ciphers, cell.data)) == w.emitted[k]
            && cell.digest == x.hash(Transcript(w.emitted, k + 1))
            && Transcript(w.emitted, k + 1)
               == w.client.backward + Frame(w.emitted[k].stream, w.emitted[k].command, w.emitted[k].data)
  {
    hide InSync;
    var n, k, cell := |w.down|, |w.delivered|, w.down[|w.down| - 1][0];
    WithReplyTake(w.down, w.reply, n - 1);
    NextArrival(x, DownStations(w), DownWires(w), DownBase(pairs), w.emitted, w.delivered);
    assert DownStations(w)[n] == Backwards(w.client.ciphers);
    DownOpens(x, pairs, w.emitted, k);
    assert w.emitted == w.delivered + w.emitted[k..];
    PrefixStable(w.delivered, w.emitted[k..], k);
  }

  /** What reading the next cell leaves at the client. */
  lemma {:induction false} ClientAdvances(x: Circ, w: World, pairs: seq<Pair>)
    requires DownSync(x, w, pairs) && |pairs| == |w.relays| + 1
    requires w.down[|w.down| - 1] != [] && IsTraffic(w.down[|w.down| - 1][0])
    ensures var w', cell := ClientTakes(x, w), w.down[|w.down| - 1][0];
            && |w.delivered| < |w.emitted| && w'.delivered == w.delivered + [w.emitted[|w.delivered|]]
            && w'.client.backward == Transcript(w'.delivered, |w'.delivered|)
            && w'.client.ciphers == SkipBackwards(w.client.ciphers, |cell.data|)
            && w'.client.forward == w.client.forward
  {
    hide InSync, Transcript, Through, Frame;
    var w', k := ClientTakes(x, w), |w.delivered|;
    ClientOpens(x, w, pairs);
    assert w.emitted == w'.delivered + w.emitted[k + 1..];
    PrefixStable(w'.delivered, w.emitted[k + 1..], k + 1);
  }

  lemma {:induction false} ClientStations(w: World, w': World, n: nat)
    requires Shape(w) && w'.client.ciphers == SkipBackwards(w.client.ciphers, n)
    requires w'.relays == w.relays && w'.exit == w.exit && |w'.up| == |w.up| && |w'.down| == |w.down|
    ensures Shape(w') && UpStations(w') == UpStations(w)
    ensures DownStations(w') == DownStations(w)[|w.down| := Advance(DownStations(w)[|w.down|], n)]
  {
    assert Forwards(w'.client.ciphers) == Forwards(w.client.ciphers);
    assert Backwards(w'.client.ciphers) == Advance(Backwards(w.client.ciphers), n);
  }

  lemma {:induction false} DownArrives(x: Circ, w: World, pairs: seq<Pair>)
    requires DownSync(x, w, pairs) && |pairs| == |w.relays| + 1
    requires w.down[|w.down| - 1] != [] && IsTraffic(w.down[|w.down| - 1][0])
    ensures DownSync(x, ClientTakes(x, w), pairs)
    ensures UpStations(ClientTakes(x, w)) == UpStations(w)
  {
    hide InSync;
    var w', last := ClientTakes(x, w), |w.down| - 1;
    var cell := w.down[last][0];
    ClientAdvances(x, w, pairs);
    ClientStations(w, w', |cell.data|);
    WithReplyTake(w.down, w.reply, last);
    ArriveSync(x, DownStations(w), DownWires(w), DownBase(pairs), w.emitted, w.delivered, DownWires(w'));
  }

  /** The invariant. Backward sync is claimed as long as the exit sealed no cell while a reply waited. */
  ghost predicate Lockstep(x: Circ, w: World, pairs: seq<Pair>) {
    && Tidy(x, w)
    && |pairs| == |w.relays| + 1
    && UpSync(x, w, pairs)
    && (!w.raced ==> DownSync(x, w, pairs))
  }

  /** The start: all keys equal, nothing sent. */
  lemma {:induction false} BuiltLockstep(x: Circ, pairs: seq<Pair>)
    requires |pairs| >= 2
    ensures Lockstep(x, Built(pairs), pairs)
  {
    hide InSync;
    var w := Built(pairs);
    assert UpStations(w) == UpBase(pairs);
    assert DownStations(w) == DownBase(pairs);
    StartInSync(x, UpBase(pairs), w.up);
    StartInSync(x, DownBase(pairs), w.down);
  }

  /** Whatever touches neither ciphers, digests, wires nor their history. */
  lemma {:induction false} Aside(x: Circ, w: World, w': World, pairs: seq<Pair>)
    requires Lockstep(x, w, pairs)
    requires w'.client.ciphers == w.client.ciphers && w'.client.forward == w.client.forward
    requires w'.client.backward == w.client.backward && w'.relays == w.relays && w'.exit.crypto == w.exit.crypto
    requires w'.up == w.up && w'.down == w.down && w'.reply == w.reply && w'.raced == w.raced
    requires w'.sent == w.sent && w'.accepted == w.accepted && w'.emitted == w.emitted && w'.delivered == w.delivered
    requires forall s :: s in w'.local ==> |w'.local[s].destination| < MAX_PAYLOAD_SIZE
    ensures Lockstep(x, w', pairs)
  {
    hide InSync;
    assert UpStations(w') == UpStations(w) && DownStations(w') == DownStations(w);
  }

  lemma {:induction false} ShapeIsTidy(x: Circ, w: World)
    requires Tidy(x, w)
    ensures Shape(w)
  {
  }

  lemma {:induction false} ClientSendsBack(x: Circ, w: World, p: Plain)
    requires Shape(w)
    ensures ClientSends(x, w, p).client.backward == w.client.backward
  {
  }

  lemma {:induction false} ClientSendsTidy(x: Circ, w: World, p: Plain)
    requires Tidy(x, w) && |p.data| <= MAX_PAYLOAD_SIZE && Shape(ClientSends(x, w, p))
    requires p.command == Begin || p.command == Data || p.command == End
    ensures Tidy(x, ClientSends(x, w, p))
  {
    hide Through, Frame;
    var w' := ClientSends(x, w, p);
    forall j, m | 0 <= j < |w'.up| && m in w'.up[j] ensures UpCell(x, m) {
      assert j == 0 || m in w.up[j];
    }
  }

  lemma {:induction false} ClientSendsLockstep(x: Circ, w: World, p: Plain, pairs: seq<Pair>)
    requires Lockstep(x, w, pairs) && |p.data| <= MAX_PAYLOAD_SIZE
    requires p.command == Begin || p.command == Data || p.command == End
    ensures Lockstep(x, ClientSends(x, w, p), pairs)
  {
    hide Seal, ClientSend, UpStations, DownStations, UpSync, DownSync, Tidy;
    assert Tidy(x, w) && UpSync(x, w, pairs) && (!w.raced ==> DownSync(x, w, pairs));
    ShapeIsTidy(x, w);
    SendStations(x, w, p);
    UpSends(x, w, p, pairs);
    ClientSendsTidy(x, w, p);
    ClientSendsBack(x, w, p);
    if !w.raced {
      DownFrame(x, w, ClientSends(x, w, p), pairs);
    }
  }

  lemma {:induction false} PaddingLockstep(x: Circ, w: World, bytes: seq<byte>, pairs: seq<Pair>)
    requires Lockstep(x, w, pairs) && |bytes| < MAX_PAYLOAD_SIZE
    ensures Lockstep(x, Apply(x, w, SendPadding(bytes)), pairs)
  {
    hide InSync;
    var w' := Apply(x, w, SendPadding(bytes));
    assert UpStations(w') == UpStations(w) && DownStations(w') == DownStations(w);
    PutControl(w.up, 0, CircuitMessage(x.id, Padding, bytes));
    UpControl(x, w, w', pairs);
    if !w.raced {
      DownFrame(x, w, w', pairs);
    }
  }

  lemma {:induction false} RelayTakesLockstep(x: Circ, w: World, i: nat, pairs: seq<Pair>)
    requires Lockstep(x, w, pairs) && CanRelayUp(x, w, i)
    ensures Lockstep(x, RelayTakes(x, w, i), pairs)
  {
    hide InSync;
    AllUpTake(x, w.up, i);
    if w.up[i][0].command == Padding {
      UpDrops(x, w, i, pairs);
    } else {
      UpPasses(x, w, i, pairs);
    }
    if !w.raced {
      DownFrame(x, w, RelayTakes(x, w, i), pairs);
    }
  }

  lemma {:induction false} ExitTakesLockstep(x: Circ, w: World, dial: Dial, pairs: seq<Pair>)
    requires Lockstep(x, w, pairs) && CanExitTake(x, w, dial)
    ensures Lockstep(x, ExitTakes(x, w, dial), pairs)
  {
    hide InSync;
    var w', n, msg := ExitTakes(x, w, dial), |w.up|, w.up[|w.up| - 1][0];
    AllUpTake(x, w.up, n - 1);
    if msg.command == Padding {
      assert UpStations(w') == UpStations(w) && DownStations(w') == DownStations(w);
      TakeControl(w.up, n - 1);
      UpControl(x, w, w', pairs);
      if !w.raced {
        DownFrame(x, w, w', pairs);
      }
    } else {
      ExitTidy(x, w, dial);
      UpArrives(x, w, dial, pairs);
      if !w.raced {
        DownAnswers(x, w, dial, pairs);
      }
    }
  }

  /** Every answer of the exit fits in a cell. */
  lemma {:induction false} ExitCell(x: Circ, w: World, dial: Dial)
    requires Shape(w) && CanExitTake(x, w, dial)
    requires UpCell(x, w.up[|w.up| - 1][0]) && IsTraffic(w.up[|w.up| - 1][0])
    ensures var act := ExitStep(x, w.exit, w.up[|w.up| - 1][0], dial).1;
            act.Wrote? || act.Reply? ==> DownCell(x, act.cell) && IsTraffic(act.cell)
  {
    hide Open, Serve, Frame, Layer;
    ExitEffect(x, w.exit, w.up[|w.up| - 1][0], dial);
  }

  lemma {:induction false} ExitTidy(x: Circ, w: World, dial: Dial)
    requires Tidy(x, w) && CanExitTake(x, w, dial)
    requires UpCell(x, w.up[|w.up| - 1][0]) && IsTraffic(w.up[|w.up| - 1][0])
    ensures Tidy(x, ExitTakes(x, w, dial))
  {
    hide DownCell, UpCell, Answer, Serve, Open;
    AllUpTake(x, w.up, |w.up| - 1);
    ExitCell(x, w, dial);
    ExitEffect(x, w.exit, w.up[|w.up| - 1][0], dial);
  }

  lemma {:induction false} WriteReplyLockstep(x: Circ, w: World, pairs: seq<Pair>)
    requires Lockstep(x, w, pairs) && w.reply.Some?
    ensures Lockstep(x, Apply(x, w, WriteReply), pairs)
  {
    hide InSync;
    var w' := Apply(x, w, WriteReply);
    assert UpStations(w') == UpStations(w) && DownStations(w') == DownStations(w);
    assert DownWires(w') == DownWires(w);
  }

  /** A stream task seals a cell; only with no reply waiting does that keep the backward line in step. */
  lemma {:induction false} TaskWritesLockstep(x: Circ, w: World, s: ExitState, p: Plain, pairs: seq<Pair>)
    requires Lockstep(x, w, pairs) && |p.data| <= MAX_PAYLOAD_SIZE && (p.command == Data || p.command == End)
    requires s.crypto == Some(Emit(x, w.exit.crypto.value, p).0)
    ensures Lockstep(x, TaskWrites(w, s, p, Emit(x, w.exit.crypto.value, p).1), pairs)
  {
    hide InSync;
    var w' := TaskWrites(w, s, p, Emit(x, w.exit.crypto.value, p).1);
    ExitStations(w, w', s.crypto.value);
    assert UpStations(w)[|w.up|] == [s.crypto.value.pair.forward];
    assert UpStations(w') == UpStations(w);
    UpFrame(x, w, w', pairs);
    if !w'.raced {
      DownEmits(x, w, w', p, pairs);
    }
  }

  lemma {:induction false} RelayReturnsLockstep(x: Circ, w: World, i: nat, pairs: seq<Pair>)
    requires Lockstep(x, w, pairs) && CanRelayDown(x, w, i)
    ensures Lockstep(x, RelayReturns(x, w, i), pairs)
  {
    hide InSync;
    var w', j := RelayReturns(x, w, i), |w.relays| - 1 - i;
    AllDownTake(x, w.down, j);
    RelayReturnsUp(x, w, i);
    UpFrame(x, w, w', pairs);
    if !w.raced {
      if w.down[j][0].command == Destroy {
        DownDestroys(x, w, i, pairs);
      } else {
        DownPasses(x, w, i, pairs);
      }
    }
  }

  lemma {:induction false} RelayReturnsUp(x: Circ, w: World, i: nat)
    requires Shape(w) && CanRelayDown(x, w, i)
    ensures Shape(RelayReturns(x, w, i)) && UpStations(RelayReturns(x, w, i)) == UpStations(w)
  {
  }

  lemma {:induction false} TearDownLockstep(x: Circ, w: World, j: nat, pairs: seq<Pair>)
    requires Lockstep(x, w, pairs) && j < |w.down|
    ensures Lockstep(x, Apply(x, w, TearDown(j)), pairs)
  {
    hide InSync;
    var w' := Apply(x, w, TearDown(j));
    assert UpStations(w') == UpStations(w);
    UpFrame(x, w, w', pairs);
    if !w.raced {
      DownTears(x, w, j, pairs);
    }
  }

  lemma {:induction false} ClientTakesLockstep(x: Circ, w: World, pairs: seq<Pair>)
    requires Lockstep(x, w, pairs) && w.down[|w.down| - 1] != []
    ensures Lockstep(x, ClientTakes(x, w), pairs)
  {
    hide InSync;
    var w', last := ClientTakes(x, w), |w.down| - 1;
    AllDownTake(x, w.down, last);
    ClientTakesUp(x, w);
    UpFrame(x, w, w', pairs);
    if !w.raced {
      if w.down[last][0].command == Destroy {
        TakeControl(w.down, last);
        WithReplyControl(w.down, w'.down, w.reply);
        assert DownStations(w') == DownStations(w);
        DownControl(x, w, w', pairs);
      } else {
        DownArrives(x, w, pairs);
      }
    }
  }

  lemma {:induction false} ClientTakesUp(x: Circ, w: World)
    requires Shape(w) && w.down[|w.down| - 1] != []
    ensures Shape(ClientTakes(x, w)) && UpStations(ClientTakes(x, w)) == UpStations(w)
  {
    assert Forwards(ClientTakes(x, w).client.ciphers) == Forwards(w.client.ciphers);
  }
}
