/** Stateful stream ciphers, layering, and the running cell digest. */
module Crypto {
  import opened Common
  import opened Cells

  type Key = seq<byte>

  /** One keystream position applied to one byte. Nothing is known of it but that applying the same
      position of the same key twice gives the byte back, which the counter mode of section 6.5 of
      NIST SP 800-38A does. */
  type Mask = m: (Key, nat, byte) -> byte | Involutive(m) witness (k: Key, i: nat, b: byte) => b

  ghost predicate Involutive(m: (Key, nat, byte) -> byte) {
    forall k, i, b {:trigger m(k, i, m(k, i, b))} :: m(k, i, m(k, i, b)) == b
  }

  /** The 4-byte snapshot of the running hash, as a function of everything absorbed so far. */
  type Hash = seq<byte> -> Tag

  datatype SessionKey = SessionKey(forward: Key, backward: Key)

  /** One direction of one hop's cipher: its key and how far into the keystream it is. */
  datatype Cipher = Cipher(key: Key, pos: nat)

  /** Both directions, as a relay holds for a circuit and the client holds for a hop. */
  datatype Pair = Pair(forward: Cipher, backward: Cipher)

  function FreshPair(key: SessionKey): Pair {
    Pair(Cipher(key.forward, 0), Cipher(key.backward, 0))
  }

  function Layer(m: Mask, c: Cipher, data: seq<byte>): (r: seq<byte>)
    ensures |r| == |data|
  {
    seq(|data|, i requires 0 <= i < |data| => m(c.key, c.pos + i, data[i]))
  }

  function Skip(c: Cipher, n: nat): Cipher {
    c.(pos := c.pos + n)
  }

  function Advance(cs: seq<Cipher>, n: nat): (r: seq<Cipher>)
    ensures |r| == |cs|
    ensures forall i :: 0 <= i < |cs| ==> r[i] == Skip(cs[i], n)
  {
    seq(|cs|, i requires 0 <= i < |cs| => Skip(cs[i], n))
  }

  /** Apply one layer after the other, `cs[0]` first. */
  function Through(m: Mask, cs: seq<Cipher>, data: seq<byte>): (r: seq<byte>)
    ensures |r| == |data|
  {
    if cs == [] then data else Through(m, cs[1..], Layer(m, cs[0], data))
  }

  lemma {:induction false} LayerTwice(m: Mask, c: Cipher, data: seq<byte>)
    ensures Layer(m, c, Layer(m, c, data)) == data
  {
    var once := Layer(m, c, data);
    var twice := Layer(m, c, once);
    forall i | 0 <= i < |data| ensures twice[i] == data[i] {
      assert twice[i] == m(c.key, c.pos + i, m(c.key, c.pos + i, data[i]));
    }
  }

  /** A stateful cipher does not care how its stream is cut up: enciphering in pieces, each where the last left
      off, is enciphering at once. */
  lemma {:induction false} LayerSplits(m: Mask, c: Cipher, a: seq<byte>, b: seq<byte>)
    ensures Layer(m, c, a + b) == Layer(m, c, a) + Layer(m, Skip(c, |a|), b)
    ensures forall k: byte {:trigger [k]} :: Layer(m, c, [k]) == [m(c.key, c.pos, k)]
  {
    var whole, parts := Layer(m, c, a + b), Layer(m, c, a) + Layer(m, Skip(c, |a|), b);
    forall i | 0 <= i < |whole| ensures whole[i] == parts[i] {
      if i >= |a| {
        assert parts[i] == m(c.key, c.pos + |a| + (i - |a|), b[i - |a|]);
      }
    }
  }

  lemma {:induction false} ThroughAppend(m: Mask, a: seq<Cipher>, b: seq<Cipher>, data: seq<byte>)
    ensures Through(m, a + b, data) == Through(m, b, Through(m, a, data))
  {
    if a == [] {
      assert a + b == b;
    } else {
      assert (a + b)[1..] == a[1..] + b;
      ThroughAppend(m, a[1..], b, Layer(m, a[0], data));
    }
  }

  /** The layers of a circuit cancel: put on last hop first, taken off first hop first, both sides at
      the same positions. Both directions of a circuit apply exactly this list of layers. */
  lemma {:induction false} LayersCancel(m: Mask, cs: seq<Cipher>, data: seq<byte>)
    ensures Through(m, Reverse(cs) + cs, data) == data
  {
    if cs == [] {
      assert Reverse(cs) + cs == [];
    } else {
      var inner := Through(m, Reverse(cs[1..]), data);
      assert Reverse(cs) + cs == Reverse(cs[1..]) + ([cs[0]] + ([cs[0]] + cs[1..]));
      ThroughAppend(m, Reverse(cs[1..]), [cs[0]] + ([cs[0]] + cs[1..]), data);
      ThroughAppend(m, [cs[0]], [cs[0]] + cs[1..], inner);
      assert Through(m, [cs[0]], inner) == Layer(m, cs[0], inner);
      LayerTwice(m, cs[0], inner);
      assert ([cs[0]] + cs[1..])[1..] == cs[1..];
      ThroughAppend(m, Reverse(cs[1..]), cs[1..], data);
      LayersCancel(m, cs[1..], data);
    }
  }

  /** What a digest absorbs for one cell. There is no length field. */
  function Frame(stream: StreamId, command: Command, data: seq<byte>): (r: seq<byte>)
    ensures |r| == 3 + |data|
  {
    Be16(stream) + [ToU8(command)] + data
  }

  lemma {:induction false} FrameInjective(s: StreamId, c: Command, d: seq<byte>, s': StreamId, c': Command,
      d': seq<byte>)
    requires Frame(s, c, d) == Frame(s', c', d')
    ensures s == s' && c == c' && d == d'
  {
    var f, f' := Frame(s, c, d), Frame(s', c', d');
    assert f[..2] == Be16(s) && f'[..2] == Be16(s');
    assert f[2] == ToU8(c) && f'[2] == ToU8(c');
    assert FromU8(ToU8(c)) == Some(c) && FromU8(ToU8(c')) == Some(c');
    assert f[3..] == d && f'[3..] == d';
  }

  /** The cipher state of one hop. */
  class CipherPair {
    const mask: Mask
    var forward: Cipher
    var backward: Cipher

    constructor (mask: Mask, key: SessionKey)
      ensures this.mask == mask && Value() == FreshPair(key)
    {
      this.mask := mask;
      forward := Cipher(key.forward, 0);
      backward := Cipher(key.backward, 0);
    }

    function Value(): Pair
      reads this
    {
      Pair(forward, backward)
    }

    method ApplyForward(data: array<byte>)
      modifies this`forward, data
      ensures data[..] == Layer(mask, old(forward), old(data[..]))
      ensures forward == Skip(old(forward), data.Length)
    {
      ghost var was := data[..];
      var c := forward;
      var i := 0;
      while i < data.Length
        invariant i <= data.Length && forward == Skip(c, i)
        invariant forall j :: 0 <= j < i ==> data[j] == mask(c.key, c.pos + j, was[j])
        invariant forall j :: i <= j < data.Length ==> data[j] == was[j]
      {
        data[i] := mask(forward.key, forward.pos, data[i]);
        forward := Skip(forward, 1);
        i := i + 1;
      }
    }

    method ApplyBackward(data: array<byte>)
      modifies this`backward, data
      ensures data[..] == Layer(mask, old(backward), old(data[..]))
      ensures backward == Skip(old(backward), data.Length)
    {
      ghost var was := data[..];
      var c := backward;
      var i := 0;
      while i < data.Length
        invariant i <= data.Length && backward == Skip(c, i)
        invariant forall j :: 0 <= j < i ==> data[j] == mask(c.key, c.pos + j, was[j])
        invariant forall j :: i <= j < data.Length ==> data[j] == was[j]
      {
        data[i] := mask(backward.key, backward.pos, data[i]);
        backward := Skip(backward, 1);
        i := i + 1;
      }
    }
  }

  /** The running digest of one direction; `absorbed` stands for the hash state. */
  class RunningDigest {
    const hash: Hash
    var absorbed: seq<byte>

    constructor (hash: Hash)
      ensures this.hash == hash && absorbed == []
    {
      this.hash := hash;
      absorbed := [];
    }

    method Update(stream: StreamId, command: Command, data: seq<byte>) returns (tag: Tag)
      modifies this
      ensures absorbed == old(absorbed) + Frame(stream, command, data)
      ensures tag == hash(absorbed)
    {
      absorbed := absorbed + Be16(stream);
      absorbed := absorbed + [ToU8(command)];
      absorbed := absorbed + data;
      tag := hash(absorbed);
      assert absorbed == old(absorbed) + Frame(stream, command, data);
    }

    method Verify(stream: StreamId, command: Command, data: seq<byte>, expected: Tag) returns (ok: bool)
      modifies this
      ensures absorbed == old(absorbed) + Frame(stream, command, data)
      ensures ok <==> hash(absorbed) == expected
    {
      var computed := Update(stream, command, data);
      ok := computed == expected;
    }
  }
}
