/** What the running digest guarantees when the wire is not a FIFO: cells lost, repeated, reordered, or
    with anything but their digest and length fields changed in place. */
module Tamper {
  import opened Common
  import opened Cells
  import opened Crypto
  import opened Pipeline
  import opened Relay
  import opened Exit
  import opened Client

  /** The digest field and the payload length of some cell that was sent. */
  ghost predicate Copied(x: Circ, m: Message, sent: seq<Plain>) {
    exists j {:trigger sent[j]} ::
      0 <= j < |sent| && m.digest == x.hash(Transcript(sent, j + 1)) && |m.data| == |sent[j].data|
  }

  /** Nothing the receiver hashed collides with what the sender hashed. The snapshots have four bytes,
      so this cannot be had for all byte strings; it is asked for these only. */
  ghost predicate NoCollision(x: Circ, sent: seq<Plain>, heard: seq<seq<byte>>) {
    forall i, j {:trigger heard[i], Transcript(sent, j)} ::
      0 <= i < |heard| && 0 <= j <= |sent| && x.hash(heard[i]) == x.hash(Transcript(sent, j)) ==>
        heard[i] == Transcript(sent, j)
  }

  /** Every cell is such a copy once it is sealed, whatever layers it has on. */
  lemma {:induction false} SealIsCopied(x: Circ, station: seq<Cipher>, sent: seq<Plain>, p: Plain)
    ensures Copied(x, Seal(x, station, Transcript(sent, |sent|), p), sent + [p])
  {
    PrefixStable(sent, [p], |sent|);
    assert (sent + [p])[|sent|] == p;
  }

  lemma {:induction false} CopiedGrows(x: Circ, m: Message, sent: seq<Plain>, p: Plain)
    requires Copied(x, m, sent)
    ensures Copied(x, m, sent + [p])
  {
    var j :| 0 <= j < |sent| && m.digest == x.hash(Transcript(sent, j + 1)) && |m.data| == |sent[j].data|;
    PrefixStable(sent, [p], j + 1);
    assert (sent + [p])[j] == sent[j];
  }

  /** A relay makes a copy of a copy, in either direction: layers keep lengths. */
  lemma {:induction false} RelaysKeepCopies(x: Circ, s: RelayState, m: Message, sent: seq<Plain>)
    requires Copied(x, m, sent)
    ensures Established(s, m) ==>
              var act := ForwardStep(x, s, m).1; act.Forwarded? || act.Reply? ==> Copied(x, act.cell, sent)
    ensures m.command != Destroy ==>
              var act := BackwardStep(x, s, m).1; act.Reply? ==> Copied(x, act.cell, sent)
  {
    var j :| 0 <= j < |sent| && m.digest == x.hash(Transcript(sent, j + 1)) && |m.data| == |sent[j].data|;
  }

  /** The plaintext cells the exit accepts from whatever arrives, up to where it stops. */
  function ExitAccepts(x: Circ, c: ExitCrypto, arrivals: seq<Message>): seq<Plain>
    decreases |arrivals|
  {
    if arrivals == [] then [] else
    match arrivals[0].command
    case Padding => ExitAccepts(x, c, arrivals[1..])
    case Begin | Data | End =>
      var (c', p) := Open(x, c, arrivals[0]);
      if p.None? then [] else [p.value] + ExitAccepts(x, c', arrivals[1..])
    case _ => []
  }

  /** What its forward digest has absorbed each time it is compared. */
  function ExitHears(x: Circ, c: ExitCrypto, arrivals: seq<Message>): seq<seq<byte>>
    decreases |arrivals|
  {
    if arrivals == [] then [] else
    match arrivals[0].command
    case Padding => ExitHears(x, c, arrivals[1..])
    case Begin | Data | End =>
      var (c', p) := Open(x, c, arrivals[0]);
      [c'.forward] + if p.None? then [] else ExitHears(x, c', arrivals[1..])
    case _ => []
  }

  function ClientAccepts(x: Circ, c: ClientState, arrivals: seq<Message>): seq<Plain>
    decreases |arrivals|
  {
    if arrivals == [] then [] else
    var (c', event) := ClientReceive(x, c, arrivals[0]);
    if event.Delivered? || event.Unclaimed? then [event.cell] + ClientAccepts(x, c', arrivals[1..]) else []
  }

  function ClientHears(x: Circ, c: ClientState, arrivals: seq<Message>): seq<seq<byte>>
    decreases |arrivals|
  {
    if arrivals == [] then [] else
    var (c', event) := ClientReceive(x, c, arrivals[0]);
    if event.TornDown? then []
    else [c'.backward] + if event.Mismatch? then [] else ClientHears(x, c', arrivals[1..])
  }

  lemma {:induction false} LongerTranscript(log: seq<Plain>, i: nat, j: nat)
    requires i < j <= |log|
    ensures |Transcript(log, i)| < |Transcript(log, j)|
  {
    if i < j - 1 {
      LongerTranscript(log, i, j - 1);
    }
  }

  /** The heart of it: after `k` cells in order, a cell whose transcript is that of some sent cell with
      the same payload length is the next cell. */
  lemma {:induction false} OnlyTheNext(sent: seq<Plain>, k: nat, p: Plain, j: nat)
    requires k <= |sent| && j < |sent| && |p.data| == |sent[j].data|
    requires Transcript(sent, k) + Frame(p.stream, p.command, p.data) == Transcript(sent, j + 1)
    ensures j == k && p == sent[k]
  {
    assert |Transcript(sent, k)| == |Transcript(sent, j)|;
    if j < k {
      LongerTranscript(sent, j, k);
    } else if k < j {
      LongerTranscript(sent, k, j);
    }
    var t := Transcript(sent, k);
    assert (t + Frame(p.stream, p.command, p.data))[|t|..] == Frame(p.stream, p.command, p.data);
    assert Transcript(sent, j + 1)[|t|..] == Frame(sent[j].stream, sent[j].command, sent[j].data);
    FrameInjective(p.stream, p.command, p.data, sent[j].stream, sent[j].command, sent[j].data);
  }

  lemma {:induction false} AcceptedIsNext(x: Circ, sent: seq<Plain>, k: nat, m: Message, p: Plain,
      absorbed: seq<byte>, heard: seq<seq<byte>>)
    requires k <= |sent| && Copied(x, m, sent) && |p.data| == |m.data|
    requires absorbed == Transcript(sent, k) + Frame(p.stream, p.command, p.data) && x.hash(absorbed) == m.digest
    requires NoCollision(x, sent, heard) && heard != [] && heard[0] == absorbed
    ensures k < |sent| && p == sent[k] && absorbed == Transcript(sent, k + 1)
  {
    var j :| 0 <= j < |sent| && m.digest == x.hash(Transcript(sent, j + 1)) && |m.data| == |sent[j].data|;
    assert heard[0] == Transcript(sent, j + 1);
    OnlyTheNext(sent, k, p, j);
  }

  lemma {:induction false} NoCollisionTail(x: Circ, sent: seq<Plain>, heard: seq<seq<byte>>)
    requires NoCollision(x, sent, heard) && heard != []
    ensures NoCollision(x, sent, heard[1..])
  {
    forall i, j {:trigger heard[1..][i], Transcript(sent, j)} | 0 <= i < |heard[1..]| && 0 <= j <= |sent| &&
                                                           x.hash(heard[1..][i]) == x.hash(Transcript(sent, j))
      ensures heard[1..][i] == Transcript(sent, j)
    {
      assert heard[i + 1] == heard[1..][i];
    }
  }

  /** What a cell that the exit opens says of its digest before and after. */
  lemma {:induction false} ExitAbsorbs(x: Circ, c: ExitCrypto, m: Message)
    ensures var (c', p) := Open(x, c, m);
            p.Some? ==>
              && |p.value.data| == |m.data| && x.hash(c'.forward) == m.digest
              && c'.forward == c.forward + Frame(p.value.stream, p.value.command, p.value.data)
  {
    hide Frame;
  }

  /** Whatever happens to the cells on the way, the exit accepts a prefix of what the client sent. */
  lemma {:induction false} ExitAcceptsPrefix(x: Circ, c: ExitCrypto, sent: seq<Plain>, k: nat, arrivals: seq<Message>)
    requires k <= |sent| && c.forward == Transcript(sent, k)
    requires forall m :: m in arrivals ==> Copied(x, m, sent)
    requires NoCollision(x, sent, ExitHears(x, c, arrivals))
    ensures ExitAccepts(x, c, arrivals) <= sent[k..]
    decreases |arrivals|
  {
    hide Copied, NoCollision, Open, Transcript, Frame;
    if arrivals != [] {
      var m, heard := arrivals[0], ExitHears(x, c, arrivals);
      if m.command == Padding {
        ExitAcceptsPrefix(x, c, sent, k, arrivals[1..]);
      } else if m.command == Begin || m.command == Data || m.command == End {
        var (c', p) := Open(x, c, m);
        if p.Some? {
          ExitAbsorbs(x, c, m);
          AcceptedIsNext(x, sent, k, m, p.value, c'.forward, heard);
          NoCollisionTail(x, sent, heard);
          assert heard[1..] == ExitHears(x, c', arrivals[1..]);
          ExitAcceptsPrefix(x, c', sent, k + 1, arrivals[1..]);
          assert sent[k..] == [sent[k]] + sent[k + 1..];
        }
      }
    }
  }

  /** What an accepted cell says of the client before and after. */
  lemma {:induction false} ClientAbsorbs(x: Circ, c: ClientState, m: Message)
    ensures var (c', event) := ClientReceive(x, c, m);
            event.Delivered? || event.Unclaimed? ==>
              var p := event.cell;
              && |p.data| == |m.data| && c'.backward == c.backward + Frame(p.stream, p.command, p.data)
              && x.hash(c'.backward) == m.digest
  {
    hide Frame;
  }

  /** One cell of the arrivals: the client accepts it and goes on, or accepts nothing. */
  lemma {:induction false} ClientTurns(x: Circ, c: ClientState, arrivals: seq<Message>)
    requires arrivals != []
    ensures var (c', event) := ClientReceive(x, c, arrivals[0]);
            if event.Delivered? || event.Unclaimed? then
              && ClientAccepts(x, c, arrivals) == [event.cell] + ClientAccepts(x, c', arrivals[1..])
              && ClientHears(x, c, arrivals) == [c'.backward] + ClientHears(x, c', arrivals[1..])
            else ClientAccepts(x, c, arrivals) == []
  {
    hide ClientReceive;
  }

  /** And the client a prefix of what the exit sealed. */
  lemma {:induction false} ClientAcceptsPrefix(x: Circ, c: ClientState, emitted: seq<Plain>, k: nat,
      arrivals: seq<Message>)
    requires k <= |emitted| && c.backward == Transcript(emitted, k)
    requires forall m :: m in arrivals ==> Copied(x, m, emitted)
    requires NoCollision(x, emitted, ClientHears(x, c, arrivals))
    ensures ClientAccepts(x, c, arrivals) <= emitted[k..]
    decreases |arrivals|
  {
    hide Copied, NoCollision, ClientReceive, Transcript, Frame;
    if arrivals != [] {
      ClientAbsorbs(x, c, arrivals[0]);
      ClientTurns(x, c, arrivals);
      var m, heard := arrivals[0], ClientHears(x, c, arrivals);
      var (c', event) := ClientReceive(x, c, m);
      if event.Delivered? || event.Unclaimed? {
        hide ClientAccepts, ClientHears;
        AcceptedIsNext(x, emitted, k, m, event.cell, c'.backward, heard);
        NoCollisionTail(x, emitted, heard);
        assert heard[1..] == ClientHears(x, c', arrivals[1..]);
        ClientAcceptsPrefix(x, c', emitted, k + 1, arrivals[1..]);
        assert emitted[k..] == [emitted[k]] + emitted[k + 1..];
      }
    }
  }

  /** The digest runs over no lengths: two cells absorb the same as one whose payload goes on with the
      second cell's frame. So the lengths must come from somewhere else. */
  lemma {:induction false} FramesRunTogether(p: Plain, q: Plain)
    ensures var merged := p.(data := p.data + Frame(q.stream, q.command, q.data));
            Transcript([p, q], 2) == Transcript([merged], 1)
  {
    var merged := p.(data := p.data + Frame(q.stream, q.command, q.data));
    assert Transcript([p, q], 1) == Frame(p.stream, p.command, p.data);
    assert Transcript([p, q], 2) == Transcript([p, q], 1) + Frame(q.stream, q.command, q.data);
    assert Transcript([merged], 1) == Frame(p.stream, p.command, merged.data);
  }

  /** That `Copied` speaks of lengths is needed: for any two cells that are short enough together there is
      one cell of another length that carries the second one's digest and that the exit accepts in place of
      both. */
  lemma {:induction false} LengthsMatter(x: Circ, c: ExitCrypto, p: Plain, q: Plain)
    requires c.forward == [] && p.command == Data && |p.data| + 3 + |q.data| <= MAX_PAYLOAD_SIZE
    ensures var merged := p.(data := p.data + Frame(q.stream, q.command, q.data));
            var m := Message(x.id, p.stream, Data, Layer(x.mask, c.pair.forward, merged.data),
                x.hash(Transcript([p, q], 2)));
            m.Fits() && ExitAccepts(x, c, [m]) == [merged] && !([merged] <= [p, q])
  {
    var merged := p.(data := p.data + Frame(q.stream, q.command, q.data));
    FramesRunTogether(p, q);
    LayerTwice(x.mask, c.pair.forward, merged.data);
    var m := Message(x.id, p.stream, Data, Layer(x.mask, c.pair.forward, merged.data), x.hash(Transcript([p, q], 2)));
    assert Open(x, c, m).1 == Some(merged);
    assert [m][1..] == [];
    assert |merged.data| > |p.data|;
    assert [merged][0] != [p, q][0];
  }

  /** That it speaks of digests is needed, too: with a digest made for it, any other payload of the
      expected length is accepted instead, at any time. */
  lemma {:induction false} DigestsMatter(x: Circ, c: ExitCrypto, sent: seq<Plain>, k: nat, p: Plain)
    requires k < |sent| && c.forward == Transcript(sent, k)
    requires p.command == Data && |p.data| == |sent[k].data| <= MAX_PAYLOAD_SIZE && p != sent[k]
    ensures var m := Message(x.id, p.stream, Data, Layer(x.mask, c.pair.forward, p.data),
                x.hash(Transcript(sent[..k] + [p], k + 1)));
            && m.Fits() && |m.data| == |sent[k].data|
            && ExitAccepts(x, c, [m]) == [p] && !([p] <= sent[k..])
  {
    var m := Message(x.id, p.stream, Data, Layer(x.mask, c.pair.forward, p.data),
        x.hash(Transcript(sent[..k] + [p], k + 1)));
    PrefixStable(sent[..k], [p], k);
    PrefixStable(sent[..k], sent[k..], k);
    assert sent[..k] + sent[k..] == sent;
    LayerTwice(x.mask, c.pair.forward, p.data);
    assert Open(x, c, m).1 == Some(p);
    assert [m][1..] == [];
    assert [p][0] != sent[k..][0];
  }
}
