/** What a digest check can tell of the cells on a line of wires, and in which order they will be checked. */
module Lines {
  import opened Common
  import opened Cells
  import opened Crypto
  import opened Pipeline
  import opened Network

  /** What a digest check sees of a cell: its tag and its length. */
  datatype Mark = Mark(digest: Tag, size: nat)

  function MarkOf(m: Message): Mark {
    Mark(m.digest, |m.data|)
  }

  function Marks(cells: seq<Message>): (r: seq<Mark>)
    ensures |r| == |cells|
  {
    seq(|cells|, i requires 0 <= i < |cells| => MarkOf(cells[i]))
  }

  /** The enciphered cells on the wires in the order in which they will reach the far end. */
  function Line(wires: seq<seq<Message>>): seq<Mark> {
    if wires == [] then [] else Marks(Traffic(wires[|wires| - 1])) + Line(wires[..|wires| - 1])
  }

  lemma {:induction false} LineOnlyTraffic(a: seq<seq<Message>>, b: seq<seq<Message>>)
    requires |a| == |b| && forall j :: 0 <= j < |a| ==> Traffic(a[j]) == Traffic(b[j])
    ensures Line(a) == Line(b)
  {
    if a != [] {
      LineOnlyTraffic(a[..|a| - 1], b[..|b| - 1]);
    }
  }

  lemma {:induction false} MarksSnoc(cells: seq<Message>, m: Message)
    ensures Marks(cells + [m]) == Marks(cells) + [MarkOf(m)]
  {
  }

  lemma {:induction false} MarksCons(m: Message, cells: seq<Message>)
    ensures Marks([m] + cells) == [MarkOf(m)] + Marks(cells)
  {
  }

  /** What the first station writes comes last. */
  lemma {:induction false} LinePut(wires: seq<seq<Message>>, m: Message)
    requires wires != [] && IsTraffic(m)
    ensures Line(Put(wires, 0, m)) == Line(wires) + [MarkOf(m)]
  {
    hide Marks;
    var last, put := |wires| - 1, Put(wires, 0, m);
    if last == 0 {
      TrafficSnoc(wires[0], m);
      MarksSnoc(Traffic(wires[0]), m);
      assert wires[..0] == [] && put[..0] == [];
      assert Line(wires) == Marks(Traffic(wires[0])) + [] && Line(put) == Marks(Traffic(put[0])) + [];
    } else {
      LinePut(wires[..last], m);
      assert put[..last] == Put(wires[..last], 0, m);
      var front := Marks(Traffic(wires[last]));
      assert Line(put) == front + (Line(wires[..last]) + [MarkOf(m)]);
    }
  }

  /** What is next at the far end comes first. */
  lemma {:induction false} LineTake(wires: seq<seq<Message>>)
    requires wires != [] && wires[|wires| - 1] != [] && IsTraffic(wires[|wires| - 1][0])
    ensures Line(wires) == [MarkOf(wires[|wires| - 1][0])] + Line(Take(wires, |wires| - 1))
  {
    hide Marks;
    var last, took := |wires| - 1, Take(wires, |wires| - 1);
    var m, rest := wires[last][0], Traffic(wires[last][1..]);
    assert took[..last] == wires[..last];
    assert Traffic(wires[last]) == [m] + rest;
    MarksCons(m, rest);
    assert Line(took) == Marks(rest) + Line(wires[..last]);
    assert ([MarkOf(m)] + Marks(rest)) + Line(wires[..last]) == [MarkOf(m)] + (Marks(rest) + Line(wires[..last]));
  }

  /** Passing a cell on does not change the order. */
  lemma {:induction false} LineMove(wires: seq<seq<Message>>, j: nat, m: Message)
    requires j + 1 < |wires| && wires[j] != [] && IsTraffic(wires[j][0])
    requires IsTraffic(m) && MarkOf(m) == MarkOf(wires[j][0])
    ensures Line(Put(Take(wires, j), j + 1, m)) == Line(wires)
  {
    var last, moved := |wires| - 1, Put(Take(wires, j), j + 1, m);
    if j + 1 == last {
      var before, after := wires[..last], moved[..last];
      assert after == Take(before, j);
      LineTake(before);
      TrafficSnoc(wires[last], m);
    } else {
      LineMove(wires[..last], j, m);
      assert moved[..last] == Put(Take(wires[..last], j), j + 1, m);
    }
  }

  lemma {:induction false} LineAppend(a: seq<seq<Message>>, wire: seq<Message>)
    ensures Line(a + [wire]) == Marks(Traffic(wire)) + Line(a)
  {
    assert (a + [wire])[..|a|] == a;
  }

  /** The marks of the cells `from..to` of a log. */
  function Expected(x: Circ, log: seq<Plain>, from: nat, to: nat): (r: seq<Mark>)
    requires from <= to <= |log|
    ensures |r| == to - from
  {
    seq(to - from, i requires 0 <= i < to - from => Mark(x.hash(Transcript(log, from + i + 1)), |log[from + i].data|))
  }

  lemma {:induction false} ExpectedGrows(x: Circ, log: seq<Plain>, p: Plain, from: nat, to: nat)
    requires from <= to <= |log|
    ensures Expected(x, log + [p], from, to) == Expected(x, log, from, to)
  {
    hide Transcript;
    forall i | 0 <= i < to - from ensures Expected(x, log + [p], from, to)[i] == Expected(x, log, from, to)[i] {
      PrefixStable(log, [p], from + i + 1);
    }
  }

  lemma {:induction false} ThroughLength(m: Mask, cs: seq<Cipher>, data: seq<byte>)
    ensures |Through(m, cs, data)| == |data|
  {
  }

  lemma {:induction false} CarriedMarks(x: Circ, wire: seq<Message>, layers: seq<Cipher>, log: seq<Plain>, from: nat,
      to: nat)
    requires Carries(x, wire, layers, log, from, to)
    ensures Marks(Traffic(wire)) == Expected(x, log, from, to)
  {
    hide Transcript, Through, Advance;
    forall i | 0 <= i < to - from ensures Marks(Traffic(wire))[i] == Expected(x, log, from, to)[i] {
      assert Traffic(wire)[i] == Sealed(x, layers, log, from + i);
      ThroughLength(x.mask, Advance(layers, Total(log, from + i)), log[from + i].data);
    }
  }

  lemma {:induction false} LineUpto(x: Circ, stations: seq<seq<Cipher>>, wires: seq<seq<Message>>,
      base: seq<seq<Cipher>>, log: seq<Plain>, taken: seq<nat>, j: nat)
    requires InStep(x, stations, wires, base, log, taken) && j <= |wires|
    ensures taken[j] <= |log| && Line(wires[..j]) == Expected(x, log, taken[j], |log|)
  {
    hide StationsAt, Carries, Marks, Expected;
    if j == 0 {
      assert wires[..0] == [];
      assert Expected(x, log, |log|, |log|) == [];
    } else {
      LineUpto(x, stations, wires, base, log, taken, j - 1);
      assert wires[..j] == wires[..j - 1] + [wires[j - 1]];
      LineAppend(wires[..j - 1], wires[j - 1]);
      assert Carries(x, wires[j - 1], Upto(base, j - 1), log, taken[j], taken[j - 1]);
      CarriesWithin(x, wires[j - 1], Upto(base, j - 1), log, taken[j], taken[j - 1]);
      CarriedMarks(x, wires[j - 1], Upto(base, j - 1), log, taken[j], taken[j - 1]);
      ExpectedSplit(x, log, taken[j], taken[j - 1], |log|);
    }
  }

  lemma {:induction false} CarriesWithin(x: Circ, wire: seq<Message>, layers: seq<Cipher>, log: seq<Plain>, from: nat,
      to: nat)
    requires Carries(x, wire, layers, log, from, to)
    ensures from <= to <= |log|
  {
  }

  lemma {:induction false} ExpectedSplit(x: Circ, log: seq<Plain>, a: nat, b: nat, c: nat)
    requires a <= b <= c <= |log|
    ensures Expected(x, log, a, c) == Expected(x, log, a, b) + Expected(x, log, b, c)
  {
    hide Transcript;
  }

  /** In step, the line is what was sealed and has not arrived. */
  lemma {:induction false} LineIsLog(x: Circ, stations: seq<seq<Cipher>>, wires: seq<seq<Message>>,
      base: seq<seq<Cipher>>, log: seq<Plain>, out: seq<Plain>)
    requires InSync(x, stations, wires, base, log, out)
    ensures |out| <= |log| && Line(wires) == Expected(x, log, |out|, |log|)
  {
    hide StationsAt, WiresCarry, Expected;
    var taken: seq<nat> :| InStep(x, stations, wires, base, log, taken) && taken[|taken| - 1] == |out|;
    LineUpto(x, stations, wires, base, log, taken, |wires|);
    assert wires[..|wires|] == wires;
  }
}
