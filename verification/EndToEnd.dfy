/** From the handshakes to the bytes: what a client that built a circuit along a path may rely on. */
module EndToEnd {
  import opened Common
  import opened Cells
  import opened Crypto
  import opened Pipeline
  import opened Handshake
  import Exit
  import Hearing
  import Network
  import Pipes
  import Runs
  import Sync
  import Telescope

  /** Every wire reads back from its bytes, however its cells are filled up and its last one is cut off. */
  ghost predicate ReadsBack(wires: seq<seq<Message>>) {
    forall j, noise, tail {:trigger EncodeAll(wires[j], noise) + tail} ::
      0 <= j < |wires| && |noise| == |wires[j]| && |tail| < CELL_SIZE ==>
        ReadAll(EncodeAll(wires[j], noise) + tail) == Ok(wires[j])
  }

  lemma {:induction false} AllReadBack(x: Circ, w: Network.World, pairs: seq<Pair>)
    requires Sync.Lockstep(x, w, pairs)
    ensures ReadsBack(w.up) && ReadsBack(w.down)
  {
    forall j: nat, noise: seq<Noise>, tail: seq<byte> {:trigger EncodeAll(w.up[j], noise) + tail} |
      j < |w.up| && |noise| == |w.up[j]| && |tail| < CELL_SIZE
      ensures ReadAll(EncodeAll(w.up[j], noise) + tail) == Ok(w.up[j])
    {
      Runs.WiresSurviveCodec(x, w, pairs, j, noise, tail);
    }
    forall j: nat, noise: seq<Noise>, tail: seq<byte> {:trigger EncodeAll(w.down[j], noise) + tail} |
      j < |w.down| && |noise| == |w.down[j]| && |tail| < CELL_SIZE
      ensures ReadAll(EncodeAll(w.down[j], noise) + tail) == Ok(w.down[j])
    {
      Runs.WiresSurviveCodec(x, w, pairs, j, noise, tail);
    }
  }

  /** Take any path, any keys and draws, and any chain that `Build` ends with, the directory being true or
      the tags that were compared not colliding. The relays stand exactly where a run of the network starts;
      and after any run that hands no stream id out too early all parties are in lockstep, every wire survives
      the codec, every destination was handed a prefix of what its SOCKS client sent, and every SOCKS client a
      prefix of what its destination sent, this last as long as, once a cell overtook a reply, what the client
      compares does not collide. */
  lemma {:induction false} CircuitDelivers(
      x: Circ, net: Telescope.Net, path: seq<Telescope.Descriptor>, secrets: seq<Bytes32>, draws: seq<Bytes32>,
      c: Telescope.Chain, actions: seq<Network.Action>, w: Network.World)
    requires 3 <= |path| == |secrets| == |draws|
    requires Telescope.Telescoped(net, path, secrets, draws, c, |path|)
    requires Pipes.Reached(x, c.ciphers, actions, w)
    ensures var w0 := Network.Built(c.ciphers);
            w0.relays == c.hops && w0.exit == Exit.ExitState(Some(Exit.ExitCrypto(c.tip, [], [])), map[], [])
    ensures Sync.Lockstep(x, w, c.ciphers) && ReadsBack(w.up) && ReadsBack(w.down)
    ensures forall t {:trigger w.exit.tasks[t]} ::
              0 <= t < |w.exit.tasks| && (w.exit.tasks[t].live || t in Pipes.Current(w.local, w.exit.tasks)) ==>
                var s := w.exit.tasks[t].stream; s in w.local && w.exit.tasks[t].written <= w.local[s].read
    ensures Hearing.HearsClearly(x, Network.Built(c.ciphers), actions) ==>
              forall s {:trigger w.local[s]} :: s in w.local && w.local[s].written != [] ==>
                exists t {:trigger w.exit.tasks[t]} ::
                  && 0 <= t < |w.exit.tasks| && w.exit.tasks[t].stream == s && w.local[s].tasksBefore <= t
                  && w.local[s].written <= w.exit.tasks[t].fetched
  {
    hide Sync.Lockstep, Telescope.PairAfter, Pipes.Piped, Pipes.Current, Pipes.Reached, Hearing.HearsClearly;
    Telescope.ChainStartsNetwork(c);
    var b := Pipes.ReachedIsPiped(x, c.ciphers, actions, w, false);
    AllReadBack(x, w, c.ciphers);
    hide ReadsBack;
    forall t | 0 <= t < |w.exit.tasks| && (w.exit.tasks[t].live || t in Pipes.Current(w.local, w.exit.tasks))
      ensures var s := w.exit.tasks[t].stream; s in w.local && w.exit.tasks[t].written <= w.local[s].read
    {
      Pipes.DestinationGetsPrefix(x, c.ciphers, actions, w, t);
    }
    if Hearing.HearsClearly(x, Network.Built(c.ciphers), actions) {
      forall s | s in w.local && w.local[s].written != []
        ensures exists t {:trigger w.exit.tasks[t]} ::
                  && 0 <= t < |w.exit.tasks| && w.exit.tasks[t].stream == s && w.local[s].tasksBefore <= t
                  && w.local[s].written <= w.exit.tasks[t].fetched
      {
        Pipes.SocksGetsPrefix(x, c.ciphers, actions, w, s);
      }
    }
  }
}
