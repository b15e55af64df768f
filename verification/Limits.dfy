/** Where lockstep ends forward: a cell that does not fit. */
module Limits {
  import opened Cells
  import opened Crypto
  import opened Pipeline
  import opened Network
  import opened Sync

  /** The same wires cannot carry one cell more: then every station would have to have passed it. */
  lemma {:induction false} AllOneAhead(x: Circ, s: seq<seq<Cipher>>, s': seq<seq<Cipher>>, wires: seq<seq<Message>>,
                                       base: seq<seq<Cipher>>, log: seq<Plain>, c: Plain, taken: seq<nat>,
                                           taken': seq<nat>, j: nat)
    requires InStep(x, s, wires, base, log, taken) && InStep(x, s', wires, base, log + [c], taken')
    requires j <= |wires|
    ensures taken'[j] == taken[j] + 1
  {
    hide StationsAt;
    if j > 0 {
      AllOneAhead(x, s, s', wires, base, log, c, taken, taken', j - 1);
      assert Carries(x, wires[j - 1], Upto(base, j - 1), log, taken[j], taken[j - 1]);
      assert Carries(x, wires[j - 1], Upto(base, j - 1), log + [c], taken'[j], taken'[j - 1]);
    }
  }

  lemma {:induction false} NothingWritten(x: Circ, s: seq<seq<Cipher>>, s': seq<seq<Cipher>>, wires: seq<seq<Message>>,
                                          base: seq<seq<Cipher>>, log: seq<Plain>, c: Plain, out: seq<Plain>)
    requires InSync(x, s, wires, base, log, out)
    ensures !InSync(x, s', wires, base, log + [c], out)
  {
    hide StationsAt, WiresCarry;
    if InSync(x, s', wires, base, log + [c], out) {
      var taken: seq<nat> :| InStep(x, s, wires, base, log, taken) && taken[|taken| - 1] == |out|;
      var taken': seq<nat> :|
        InStep(x, s', wires, base, log + [c], taken') && taken'[|taken'| - 1] == |out|;
      AllOneAhead(x, s, s', wires, base, log, c, taken, taken', |wires|);
    }
  }

  /** `send_message` moves the digest and every keystream before the write is refused, so sending keeps
      the forward line in step exactly when the payload fits in a cell. */
  lemma {:induction false} SendKeepsSyncIffFits(x: Circ, w: World, p: Plain, pairs: seq<Pair>)
    requires UpSync(x, w, pairs) && p.command != Padding && p.command != Destroy
    ensures UpSync(x, ClientSends(x, w, p), pairs) <==> |p.data| <= MAX_PAYLOAD_SIZE
  {
    hide InSync;
    if |p.data| <= MAX_PAYLOAD_SIZE {
      UpSends(x, w, p, pairs);
    } else {
      var w' := ClientSends(x, w, p);
      SendStations(x, w, p);
      assert w'.up == w.up;
      NothingWritten(x, UpStations(w), UpStations(w'), w.up, UpBase(pairs), w.sent, p, w.accepted);
    }
  }
}
