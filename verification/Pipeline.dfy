/** A line of stations that each hold some stateful layers, joined by FIFO wires.
    Both directions of a circuit are such lines; what is proved here is used for each of them. */
module Pipeline {
  import opened Common
  import opened Cells
  import opened Crypto

  /** What every party of one circuit agrees on. */
  datatype Circ = Circ(mask: Mask, hash: Hash, id: CircuitId)

  /** A cell before any layer is put on it. */
  datatype Plain = Plain(stream: StreamId, command: Command, data: seq<byte>)

  /** Payload bytes of the first `n` cells. */
  function Total(log: seq<Plain>, n: nat): nat
    requires n <= |log|
  {
    if n == 0 then 0 else Total(log, n - 1) + |log[n - 1].data|
  }

  /** What a digest has absorbed after the first `n` cells. */
  function Transcript(log: seq<Plain>, n: nat): seq<byte>
    requires n <= |log|
  {
    if n == 0 then []
    else Transcript(log, n - 1) + Frame(log[n - 1].stream, log[n - 1].command, log[n - 1].data)
  }

  lemma {:induction false} PrefixStable(log: seq<Plain>, more: seq<Plain>, n: nat)
    requires n <= |log|
    ensures Total(log + more, n) == Total(log, n) && Transcript(log + more, n) == Transcript(log, n)
  {
    if n > 0 {
      PrefixStable(log, more, n - 1);
    }
  }

  /** PADDING and DESTROY carry no layers and move no keystream. */
  predicate IsTraffic(m: Message) {
    m.command != Padding && m.command != Destroy
  }

  function Traffic(wire: seq<Message>): seq<Message> {
    if wire == [] then []
    else if IsTraffic(wire[0]) then [wire[0]] + Traffic(wire[1..])
    else Traffic(wire[1..])
  }

  lemma {:induction false} TrafficAppend(a: seq<Message>, b: seq<Message>)
    ensures Traffic(a + b) == Traffic(a) + Traffic(b)
  {
    if a == [] {
      assert a + b == b;
    } else {
      assert (a + b)[0] == a[0] && (a + b)[1..] == a[1..] + b;
      TrafficAppend(a[1..], b);
    }
  }

  lemma {:induction false} TrafficSnoc(wire: seq<Message>, m: Message)
    ensures Traffic(wire + [m]) == if IsTraffic(m) then Traffic(wire) + [m] else Traffic(wire)
  {
    TrafficAppend(wire, [m]);
    assert [m][1..] == [];
  }

  /** Cell number `k` of the log, with the given layers on and the digest the sender gave it. */
  function Sealed(x: Circ, layers: seq<Cipher>, log: seq<Plain>, k: nat): Message
    requires k < |log|
  {
    Message(x.id, log[k].stream, log[k].command,
            Through(x.mask, Advance(layers, Total(log, k)), log[k].data),
            x.hash(Transcript(log, k + 1)))
  }

  /** What the first station writes for a cell, its digest having absorbed `absorbed` so far. */
  function Seal(x: Circ, station: seq<Cipher>, absorbed: seq<byte>, c: Plain): Message {
    Message(x.id, c.stream, c.command, Through(x.mask, station, c.data),
            x.hash(absorbed + Frame(c.stream, c.command, c.data)))
  }

  /** What a later station makes of a cell. */
  function Relayed(x: Circ, station: seq<Cipher>, cell: Message): Message {
    cell.(data := Through(x.mask, station, cell.data))
  }

  lemma {:induction false} OneLayer(x: Circ, c: Cipher, cell: Message)
    ensures Relayed(x, [c], cell) == cell.(data := Layer(x.mask, c, cell.data))
  {
    var once := Layer(x.mask, c, cell.data);
    assert [c][1..] == [] && Through(x.mask, [c][1..], once) == once;
    assert Through(x.mask, [c], cell.data) == Through(x.mask, [c][1..], once);
  }

  /** All layers a cell has on after station `j`. */
  function Upto(base: seq<seq<Cipher>>, j: nat): seq<Cipher>
    requires j < |base|
  {
    if j == 0 then base[0] else Upto(base, j - 1) + base[j]
  }

  /** A station that has passed `n` cells of the log. */
  ghost predicate Passed(station: seq<Cipher>, base: seq<Cipher>, log: seq<Plain>, n: nat) {
    n <= |log| && station == Advance(base, Total(log, n))
  }

  /** Exactly the cells `from..to` of the log are on the wire, in order, with these layers on. */
  ghost predicate Carries(x: Circ, wire: seq<Message>, layers: seq<Cipher>, log: seq<Plain>, from: nat, to: nat) {
    && from <= to <= |log|
    && |Traffic(wire)| == to - from
    && forall n {:trigger Traffic(wire)[n]} :: 0 <= n < to - from
        ==> Traffic(wire)[n] == Sealed(x, layers, log, from + n)
  }

  /** `taken[j]` cells of the log have passed station `j`; `base` is where the stations started. */
  ghost predicate StationsAt(stations: seq<seq<Cipher>>, base: seq<seq<Cipher>>, log: seq<Plain>, taken: seq<nat>) {
    && |stations| == |base| == |taken|
    && forall j {:trigger stations[j]} :: 0 <= j < |taken| ==> Passed(stations[j], base[j], log, taken[j])
  }

  /** What has passed station `j` but not station `j + 1` is on wire `j`. */
  ghost predicate WiresCarry(x: Circ, wires: seq<seq<Message>>, base: seq<seq<Cipher>>, log: seq<Plain>,
      taken: seq<nat>) {
    && |base| == |taken| == |wires| + 1
    && forall j {:trigger wires[j]} :: 0 <= j < |wires|
        ==> Carries(x, wires[j], Upto(base, j), log, taken[j + 1], taken[j])
  }

  /** Station 0 has sealed the whole log; station `j` writes wire `j` and reads wire `j - 1`. */
  ghost predicate InStep(x: Circ, stations: seq<seq<Cipher>>, wires: seq<seq<Message>>, base: seq<seq<Cipher>>,
                         log: seq<Plain>, taken: seq<nat>) {
    && |stations| == |base| == |taken| == |wires| + 1
    && StationsAt(stations, base, log, taken)
    && WiresCarry(x, wires, base, log, taken)
    && taken[0] == |log|
  }

  /** The first `|out|` cells of the log, and no others, have passed the last station. */
  ghost predicate InSync(x: Circ, stations: seq<seq<Cipher>>, wires: seq<seq<Message>>, base: seq<seq<Cipher>>,
                         log: seq<Plain>, out: seq<Plain>) {
    && out <= log
    && exists taken: seq<nat> {:trigger InStep(x, stations, wires, base, log, taken)} ::
         InStep(x, stations, wires, base, log, taken) && taken[|taken| - 1] == |out|
  }

  lemma {:induction false} SyncIntro(x: Circ, stations: seq<seq<Cipher>>, wires: seq<seq<Message>>,
                                     base: seq<seq<Cipher>>, log: seq<Plain>, out: seq<Plain>, taken: seq<nat>)
    requires InStep(x, stations, wires, base, log, taken)
    requires out <= log && taken[|taken| - 1] == |out|
    ensures InSync(x, stations, wires, base, log, out)
  {
    hide StationsAt, WiresCarry;
  }

  /** Nothing is in flight at the start. */
  lemma {:induction false} StartInSync(x: Circ, base: seq<seq<Cipher>>, wires: seq<seq<Message>>)
    requires |base| == |wires| + 1
    requires forall j :: 0 <= j < |wires| ==> wires[j] == []
    ensures InSync(x, base, wires, base, [], [])
  {
    var taken: seq<nat> := seq(|base|, _ => 0);
    forall j | 0 <= j < |base| ensures base[j] == Advance(base[j], 0) {
    }
    SyncIntro(x, base, wires, base, [], [], taken);
  }

  lemma {:induction false} PassedGrow(station: seq<Cipher>, base: seq<Cipher>, log: seq<Plain>, n: nat, c: Plain)
    requires Passed(station, base, log, n)
    ensures Passed(station, base, log + [c], n)
  {
    PrefixStable(log, [c], n);
  }

  lemma {:induction false} PassedOne(station: seq<Cipher>, base: seq<Cipher>, log: seq<Plain>, n: nat)
    requires Passed(station, base, log, n) && n < |log|
    ensures Passed(Advance(station, |log[n].data|), base, log, n + 1)
  {
    var now, total := Advance(station, |log[n].data|), Total(log, n + 1);
    assert now == Advance(base, total);
  }

  lemma {:induction false} CarriesGrow(x: Circ, wire: seq<Message>, layers: seq<Cipher>, log: seq<Plain>,
      from: nat, to: nat, c: Plain)
    requires Carries(x, wire, layers, log, from, to)
    ensures Carries(x, wire, layers, log + [c], from, to)
  {
    forall n | 0 <= n < to - from ensures Traffic(wire)[n] == Sealed(x, layers, log + [c], from + n) {
      PrefixStable(log, [c], from + n);
      PrefixStable(log, [c], from + n + 1);
    }
  }

  lemma {:induction false} CarriesPut(x: Circ, wire: seq<Message>, layers: seq<Cipher>, log: seq<Plain>, from: nat,
      to: nat, m: Message)
    requires Carries(x, wire, layers, log, from, to)
    requires to < |log| && IsTraffic(m) && m == Sealed(x, layers, log, to)
    ensures Carries(x, wire + [m], layers, log, from, to + 1)
  {
    TrafficSnoc(wire, m);
  }

  lemma {:induction false} CarriesTake(x: Circ, wire: seq<Message>, layers: seq<Cipher>, log: seq<Plain>,
      from: nat, to: nat)
    requires Carries(x, wire, layers, log, from, to)
    requires wire != [] && IsTraffic(wire[0])
    ensures from < to && wire[0] == Sealed(x, layers, log, from)
    ensures Carries(x, wire[1..], layers, log, from + 1, to)
  {
    assert Traffic(wire) == [wire[0]] + Traffic(wire[1..]);
    assert Traffic(wire)[0] == wire[0];
    forall n | 0 <= n < to - from - 1 ensures Traffic(wire[1..])[n] == Sealed(x, layers, log, from + 1 + n) {
      assert Traffic(wire)[n + 1] == Sealed(x, layers, log, from + (n + 1));
    }
  }

  /** One more station's layers on a cell in flight. */
  lemma {:induction false} SealedThrough(x: Circ, inner: seq<Cipher>, outer: seq<Cipher>, log: seq<Plain>, k: nat)
    requires k < |log|
    ensures var cell := Sealed(x, inner, log, k);
            cell.(data := Through(x.mask, Advance(outer, Total(log, k)), cell.data))
            == Sealed(x, inner + outer, log, k)
  {
    var T := Total(log, k);
    assert Advance(inner + outer, T) == Advance(inner, T) + Advance(outer, T);
    ThroughAppend(x.mask, Advance(inner, T), Advance(outer, T), log[k].data);
  }

  lemma {:induction false} StationsGrow(stations: seq<seq<Cipher>>, base: seq<seq<Cipher>>, log: seq<Plain>,
      taken: seq<nat>, c: Plain)
    requires StationsAt(stations, base, log, taken)
    ensures StationsAt(stations, base, log + [c], taken)
  {
    forall j | 0 <= j < |taken| ensures Passed(stations[j], base[j], log + [c], taken[j]) {
      PassedGrow(stations[j], base[j], log, taken[j], c);
    }
  }

  lemma {:induction false} StationMoves(stations: seq<seq<Cipher>>, base: seq<seq<Cipher>>, log: seq<Plain>,
      taken: seq<nat>, j: nat)
    requires StationsAt(stations, base, log, taken)
    requires j < |taken| && taken[j] < |log|
    ensures StationsAt(stations[j := Advance(stations[j], |log[taken[j]].data|)], base, log, taken[j := taken[j] + 1])
  {
    PassedOne(stations[j], base[j], log, taken[j]);
  }

  lemma {:induction false} WiresGrow(x: Circ, wires: seq<seq<Message>>, base: seq<seq<Cipher>>, log: seq<Plain>,
      taken: seq<nat>, c: Plain)
    requires WiresCarry(x, wires, base, log, taken)
    ensures WiresCarry(x, wires, base, log + [c], taken)
  {
    forall j | 0 <= j < |wires|
      ensures Carries(x, wires[j], Upto(base, j), log + [c], taken[j + 1], taken[j])
    {
      CarriesGrow(x, wires[j], Upto(base, j), log, taken[j + 1], taken[j], c);
    }
  }

  lemma {:induction false} WireMoves(x: Circ, wire: seq<Message>, wire': seq<Message>, layers: seq<Cipher>,
      log: seq<Plain>, from: nat, to: nat, takes: bool, puts: bool)
    requires Carries(x, wire, layers, log, from, to) && !(takes && puts)
    requires takes ==> wire != [] && IsTraffic(wire[0]) && wire' == wire[1..]
    requires puts ==>
               to < |log| && IsTraffic(Sealed(x, layers, log, to)) && wire' == wire + [Sealed(x, layers, log, to)]
    requires !takes && !puts ==> wire' == wire
    ensures Carries(x, wire', layers, log, if takes then from + 1 else from, if puts then to + 1 else to)
  {
    hide Carries, Sealed;
    if takes {
      CarriesTake(x, wire, layers, log, from, to);
    } else if puts {
      CarriesPut(x, wire, layers, log, from, to, Sealed(x, layers, log, to));
    }
  }

  /** Station `j` passes its next cell: off wire `j - 1`, onto wire `j`, where these exist. */
  lemma {:induction false} WiresMove(x: Circ, wires: seq<seq<Message>>, base: seq<seq<Cipher>>, log: seq<Plain>,
      taken: seq<nat>, j: nat, wires': seq<seq<Message>>)
    requires WiresCarry(x, wires, base, log, taken)
    requires j < |taken| && taken[j] < |log| && |wires'| == |wires|
    requires j > 0 ==> wires[j - 1] != [] && IsTraffic(wires[j - 1][0]) && wires'[j - 1] == wires[j - 1][1..]
    requires j < |wires| ==> var on := Sealed(x, Upto(base, j), log, taken[j]);
                             IsTraffic(on) && wires'[j] == wires[j] + [on]
    requires forall i {:trigger wires'[i]} :: 0 <= i < |wires| && i != j && i != j - 1 ==> wires'[i] == wires[i]
    ensures WiresCarry(x, wires', base, log, taken[j := taken[j] + 1])
  {
    hide Carries, Sealed;
    var taken' := taken[j := taken[j] + 1];
    forall i | 0 <= i < |wires| ensures Carries(x, wires'[i], Upto(base, i), log, taken'[i + 1], taken'[i]) {
      assert Carries(x, wires[i], Upto(base, i), log, taken[i + 1], taken[i]);
      WireMoves(x, wires[i], wires'[i], Upto(base, i), log, taken[i + 1], taken[i], i == j - 1, i == j);
    }
  }

  /** The first station seals one more cell. */
  lemma {:induction false} SendStep(x: Circ, stations: seq<seq<Cipher>>, wires: seq<seq<Message>>,
      base: seq<seq<Cipher>>, log: seq<Plain>, taken: seq<nat>, c: Plain, wires': seq<seq<Message>>)
    requires InStep(x, stations, wires, base, log, taken) && |wires| > 0
    requires c.command != Padding && c.command != Destroy
    requires wires' == wires[0 := wires[0] + [Seal(x, stations[0], Transcript(log, |log|), c)]]
    ensures InStep(x, stations[0 := Advance(stations[0], |c.data|)], wires', base, log + [c], taken[0 := |log| + 1])
  {
    hide WiresCarry;
    StationsGrow(stations, base, log, taken, c);
    StationMoves(stations, base, log + [c], taken, 0);
    WiresGrow(x, wires, base, log, taken, c);
    PrefixStable(log, [c], |log|);
    assert Passed(stations[0], base[0], log, taken[0]);
    WiresMove(x, wires, base, log + [c], taken, 0, wires');
  }

  /** What station `j` makes of the next cell is that cell of the log with the station's layers on too. */
  lemma {:induction false} NextCell(x: Circ, stations: seq<seq<Cipher>>, wires: seq<seq<Message>>,
      base: seq<seq<Cipher>>, log: seq<Plain>, taken: seq<nat>, j: nat)
    requires InStep(x, stations, wires, base, log, taken)
    requires 0 < j < |stations| && wires[j - 1] != [] && IsTraffic(wires[j - 1][0])
    ensures taken[j] < |log| && |wires[j - 1][0].data| == |log[taken[j]].data|
    ensures Relayed(x, stations[j], wires[j - 1][0]) == Sealed(x, Upto(base, j), log, taken[j])
  {
    CarriesTake(x, wires[j - 1], Upto(base, j - 1), log, taken[j], taken[j - 1]);
    SealedThrough(x, Upto(base, j - 1), base[j], log, taken[j]);
    assert Passed(stations[j], base[j], log, taken[j]);
  }

  /** Station `j` takes the next cell off its wire and, unless it is the last, writes it on. */
  lemma {:induction false} PassStep(x: Circ, stations: seq<seq<Cipher>>, wires: seq<seq<Message>>,
      base: seq<seq<Cipher>>, log: seq<Plain>, taken: seq<nat>, j: nat, wires': seq<seq<Message>>)
    requires InStep(x, stations, wires, base, log, taken)
    requires 0 < j < |stations| && wires[j - 1] != [] && IsTraffic(wires[j - 1][0])
    requires |wires'| == |wires| && wires'[j - 1] == wires[j - 1][1..]
    requires j < |wires| ==> wires'[j] == wires[j] + [Relayed(x, stations[j], wires[j - 1][0])]
    requires forall i :: 0 <= i < |wires| && i != j && i != j - 1 ==> wires'[i] == wires[i]
    ensures InStep(x, stations[j := Advance(stations[j], |wires[j - 1][0].data|)], wires', base, log,
                   taken[j := taken[j] + 1])
  {
    hide StationsAt, WiresCarry;
    NextCell(x, stations, wires, base, log, taken, j);
    StationMoves(stations, base, log, taken, j);
    WiresMove(x, wires, base, log, taken, j, wires');
  }

  /** Control cells come and go without touching anything. */
  lemma {:induction false} ControlStep(x: Circ, wires: seq<seq<Message>>, base: seq<seq<Cipher>>, log: seq<Plain>,
      taken: seq<nat>, wires': seq<seq<Message>>)
    requires WiresCarry(x, wires, base, log, taken)
    requires |wires'| == |wires| && forall j :: 0 <= j < |wires| ==> Traffic(wires'[j]) == Traffic(wires[j])
    ensures WiresCarry(x, wires', base, log, taken)
  {
    forall j | 0 <= j < |wires|
      ensures Carries(x, wires'[j], Upto(base, j), log, taken[j + 1], taken[j])
    {
      assert Carries(x, wires[j], Upto(base, j), log, taken[j + 1], taken[j]);
    }
  }

  /** Sealing a cell keeps the line in sync. */
  lemma {:induction false} SendSync(x: Circ, stations: seq<seq<Cipher>>, wires: seq<seq<Message>>,
      base: seq<seq<Cipher>>, log: seq<Plain>, out: seq<Plain>, c: Plain, wires': seq<seq<Message>>)
    requires InSync(x, stations, wires, base, log, out) && |wires| > 0 && |stations| == |wires| + 1
    requires c.command != Padding && c.command != Destroy
    requires wires' == wires[0 := wires[0] + [Seal(x, stations[0], Transcript(log, |log|), c)]]
    ensures InSync(x, stations[0 := Advance(stations[0], |c.data|)], wires', base, log + [c], out)
  {
    hide StationsAt, WiresCarry;
    var taken: seq<nat> :|
      InStep(x, stations, wires, base, log, taken) && taken[|taken| - 1] == |out|;
    SendStep(x, stations, wires, base, log, taken, c, wires');
    SyncIntro(x, stations[0 := Advance(stations[0], |c.data|)], wires', base, log + [c], out, taken[0 := |log| + 1]);
  }

  /** Passing a cell on keeps the line in sync. */
  lemma {:induction false} PassSync(x: Circ, stations: seq<seq<Cipher>>, wires: seq<seq<Message>>,
      base: seq<seq<Cipher>>, log: seq<Plain>, out: seq<Plain>, j: nat, wires': seq<seq<Message>>)
    requires InSync(x, stations, wires, base, log, out) && |stations| == |wires| + 1
    requires 0 < j < |wires| && wires[j - 1] != [] && IsTraffic(wires[j - 1][0])
    requires |wires'| == |wires| && wires'[j - 1] == wires[j - 1][1..]
    requires wires'[j] == wires[j] + [Relayed(x, stations[j], wires[j - 1][0])]
    requires forall i :: 0 <= i < |wires| && i != j && i != j - 1 ==> wires'[i] == wires[i]
    ensures InSync(x, stations[j := Advance(stations[j], |wires[j - 1][0].data|)], wires', base, log, out)
  {
    hide StationsAt, WiresCarry;
    var taken: seq<nat> :|
      InStep(x, stations, wires, base, log, taken) && taken[|taken| - 1] == |out|;
    PassStep(x, stations, wires, base, log, taken, j, wires');
    SyncIntro(x, stations[j := Advance(stations[j], |wires[j - 1][0].data|)], wires', base, log, out,
              taken[j := taken[j] + 1]);
  }

  /** The cell at the far end is the next of the log. */
  lemma {:induction false} NextArrival(x: Circ, stations: seq<seq<Cipher>>, wires: seq<seq<Message>>,
      base: seq<seq<Cipher>>, log: seq<Plain>, out: seq<Plain>)
    requires InSync(x, stations, wires, base, log, out) && |wires| > 0 && |stations| == |base| == |wires| + 1
    requires var last := wires[|wires| - 1]; last != [] && IsTraffic(last[0])
    ensures out <= log && |out| < |log| && |wires[|wires| - 1][0].data| == |log[|out|].data|
    ensures Relayed(x, stations[|wires|], wires[|wires| - 1][0]) == Sealed(x, Upto(base, |wires|), log, |out|)
  {
    hide StationsAt, WiresCarry;
    var taken: seq<nat> :|
      InStep(x, stations, wires, base, log, taken) && taken[|taken| - 1] == |out|;
    NextCell(x, stations, wires, base, log, taken, |wires|);
  }

  /** Taking it off keeps the line in sync. */
  lemma {:induction false} ArriveSync(x: Circ, stations: seq<seq<Cipher>>, wires: seq<seq<Message>>,
      base: seq<seq<Cipher>>, log: seq<Plain>, out: seq<Plain>, wires': seq<seq<Message>>)
    requires InSync(x, stations, wires, base, log, out) && |wires| > 0 && |stations| == |base| == |wires| + 1
    requires var last := wires[|wires| - 1]; last != [] && IsTraffic(last[0])
    requires wires' == wires[|wires| - 1 := wires[|wires| - 1][1..]]
    ensures |out| < |log|
    ensures var j := |wires|;
            InSync(x, stations[j := Advance(stations[j], |wires[j - 1][0].data|)], wires', base, log,
                   out + [log[|out|]])
  {
    hide StationsAt, WiresCarry;
    var taken: seq<nat> :|
      InStep(x, stations, wires, base, log, taken) && taken[|taken| - 1] == |out|;
    var j := |wires|;
    NextCell(x, stations, wires, base, log, taken, j);
    PassStep(x, stations, wires, base, log, taken, j, wires');
    SyncIntro(x, stations[j := Advance(stations[j], |wires[j - 1][0].data|)], wires', base, log,
              out + [log[|out|]], taken[j := taken[j] + 1]);
  }

  lemma {:induction false} ControlSync(x: Circ, stations: seq<seq<Cipher>>, wires: seq<seq<Message>>,
      base: seq<seq<Cipher>>, log: seq<Plain>, out: seq<Plain>, wires': seq<seq<Message>>)
    requires InSync(x, stations, wires, base, log, out)
    requires |wires'| == |wires| && forall j :: 0 <= j < |wires| ==> Traffic(wires'[j]) == Traffic(wires[j])
    ensures InSync(x, stations, wires', base, log, out)
  {
    hide StationsAt, WiresCarry;
    var taken: seq<nat> :|
      InStep(x, stations, wires, base, log, taken) && taken[|taken| - 1] == |out|;
    ControlStep(x, wires, base, log, taken, wires');
    SyncIntro(x, stations, wires', base, log, out, taken);
  }

  /** Every station is ahead of the next by exactly the payload bytes on the wire between them. */
  lemma {:induction false} Lag(x: Circ, stations: seq<seq<Cipher>>, wires: seq<seq<Message>>, base: seq<seq<Cipher>>,
            log: seq<Plain>, taken: seq<nat>, j: nat)
    requires InStep(x, stations, wires, base, log, taken) && j < |wires|
    ensures taken[j + 1] <= taken[j] <= |log|
    ensures Total(log, taken[j]) == Total(log, taken[j + 1]) + Payload(Traffic(wires[j]))
  {
    assert Carries(x, wires[j], Upto(base, j), log, taken[j + 1], taken[j]);
    LagOn(x, Traffic(wires[j]), Upto(base, j), log, taken[j + 1]);
  }

  function Payload(wire: seq<Message>): nat {
    if wire == [] then 0 else |wire[0].data| + Payload(wire[1..])
  }

  lemma {:induction false} LagOn(x: Circ, cells: seq<Message>, layers: seq<Cipher>, log: seq<Plain>, from: nat)
    requires from + |cells| <= |log|
    requires forall n :: 0 <= n < |cells| ==> cells[n] == Sealed(x, layers, log, from + n)
    ensures Total(log, from + |cells|) == Total(log, from) + Payload(cells)
  {
    if cells != [] {
      forall n | 0 <= n < |cells| - 1 ensures cells[1..][n] == Sealed(x, layers, log, from + 1 + n) {
        assert cells[n + 1] == Sealed(x, layers, log, from + (n + 1));
      }
      LagOn(x, cells[1..], layers, log, from + 1);
      assert cells[0] == Sealed(x, layers, log, from + 0);
    }
  }

  /** Payload bytes of enciphered cells on wires `from..to`. */
  function InFlight(wires: seq<seq<Message>>, from: nat, to: nat): nat
    requires from <= to <= |wires|
  {
    if from == to then 0 else InFlight(wires, from, to - 1) + Payload(Traffic(wires[to - 1]))
  }

  lemma {:induction false} LagBetween(x: Circ, stations: seq<seq<Cipher>>, wires: seq<seq<Message>>,
      base: seq<seq<Cipher>>, log: seq<Plain>, taken: seq<nat>, i: nat, j: nat)
    requires InStep(x, stations, wires, base, log, taken) && i <= j <= |wires|
    ensures taken[j] <= taken[i] <= |log|
    ensures Total(log, taken[i]) == Total(log, taken[j]) + InFlight(wires, i, j)
  {
    hide WiresCarry;
    if i < j {
      LagBetween(x, stations, wires, base, log, taken, i, j - 1);
      Lag(x, stations, wires, base, log, taken, j - 1);
    } else {
      assert Passed(stations[i], base[i], log, taken[i]);
    }
  }

  /** Where two stations hold the same cipher, the earlier is ahead of the later by exactly the
      payload bytes on the wires between them. */
  lemma {:induction false} StationLag(x: Circ, stations: seq<seq<Cipher>>, wires: seq<seq<Message>>,
      base: seq<seq<Cipher>>, log: seq<Plain>, out: seq<Plain>, i: nat, j: nat, a: nat, b: nat)
    requires InSync(x, stations, wires, base, log, out)
    requires |stations| == |base| == |wires| + 1 && i <= j <= |wires|
    requires a < |stations[i]| && a < |base[i]| && b < |stations[j]| && b < |base[j]| && base[i][a] == base[j][b]
    ensures stations[i][a] == Skip(stations[j][b], InFlight(wires, i, j))
  {
    hide WiresCarry;
    var taken: seq<nat> :|
      InStep(x, stations, wires, base, log, taken) && taken[|taken| - 1] == |out|;
    LagBetween(x, stations, wires, base, log, taken, i, j);
    assert Passed(stations[i], base[i], log, taken[i]) && Passed(stations[j], base[j], log, taken[j]);
    assert stations[i][a] == Skip(base[i][a], Total(log, taken[i]));
    assert stations[j][b] == Skip(base[j][b], Total(log, taken[j]));
  }
}
