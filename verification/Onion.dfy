/** The client's keys for an N-hop circuit: one cipher pair a hop, entry first, and two digests. */
module Onion {
  import opened Common
  import opened Crypto

  function Forwards(ps: seq<Pair>): (r: seq<Cipher>)
    ensures |r| == |ps|
  {
    seq(|ps|, i requires 0 <= i < |ps| => ps[i].forward)
  }

  function Backwards(ps: seq<Pair>): (r: seq<Cipher>)
    ensures |r| == |ps|
  {
    seq(|ps|, i requires 0 <= i < |ps| => ps[i].backward)
  }

  /** Every hop's forward position moves on together; likewise backward. */
  function SkipForwards(ps: seq<Pair>, n: nat): (r: seq<Pair>)
    ensures |r| == |ps|
  {
    seq(|ps|, i requires 0 <= i < |ps| => ps[i].(forward := Skip(ps[i].forward, n)))
  }

  function SkipBackwards(ps: seq<Pair>, n: nat): (r: seq<Pair>)
    ensures |r| == |ps|
  {
    seq(|ps|, i requires 0 <= i < |ps| => ps[i].(backward := Skip(ps[i].backward, n)))
  }

  function Wrap(m: Mask, ps: seq<Pair>, data: seq<byte>): seq<byte> {
    Through(m, Reverse(Forwards(ps)), data)
  }

  function Unwrap(m: Mask, ps: seq<Pair>, data: seq<byte>): seq<byte> {
    Through(m, Backwards(ps), data)
  }

  /** Hop `i`'s layer goes on after those of the hops behind it. */
  lemma {:induction false} OuterLayer(m: Mask, cs: seq<Cipher>, i: nat, data: seq<byte>)
    requires i < |cs|
    ensures Through(m, Reverse(cs[i..]), data) == Layer(m, cs[i], Through(m, Reverse(cs[i + 1..]), data))
  {
    assert Reverse(cs[i..]) == Reverse(cs[i + 1..]) + [cs[i]];
    ThroughAppend(m, Reverse(cs[i + 1..]), [cs[i]], data);
    assert [cs[i]][1..] == [];
  }

  /** Hop `i`'s layer comes off after those of the hops before it. */
  lemma {:induction false} InnerLayer(m: Mask, cs: seq<Cipher>, i: nat, data: seq<byte>)
    requires i < |cs|
    ensures Through(m, cs[..i + 1], data) == Layer(m, cs[i], Through(m, cs[..i], data))
  {
    assert cs[..i + 1] == cs[..i] + [cs[i]];
    ThroughAppend(m, cs[..i], [cs[i]], data);
    assert [cs[i]][1..] == [];
  }

  lemma {:induction false} NoLayers(m: Mask, data: seq<byte>)
    ensures Through(m, [], data) == data
  {
  }

  class OnionKeys {
    const mask: Mask
    const hash: Hash
    var ciphers: seq<CipherPair>
    const forwardDigest: RunningDigest
    const backwardDigest: RunningDigest

    ghost predicate Valid()
      reads this
    {
      && (forall i, j :: 0 <= i < j < |ciphers| ==> ciphers[i] != ciphers[j])
      && (forall c :: c in ciphers ==> c.mask == mask)
      && forwardDigest != backwardDigest
      && forwardDigest.hash == hash && backwardDigest.hash == hash
    }

    function Pairs(): (ps: seq<Pair>)
      reads this, ciphers
      ensures |ps| == |ciphers|
    {
      seq(|ciphers|, i requires 0 <= i < |ciphers| reads this, ciphers => ciphers[i].Value())
    }

    constructor (mask: Mask, hash: Hash, ciphers: seq<CipherPair>)
      requires forall i, j :: 0 <= i < j < |ciphers| ==> ciphers[i] != ciphers[j]
      requires forall c :: c in ciphers ==> c.mask == mask
      ensures Valid() && this.mask == mask && this.hash == hash && this.ciphers == ciphers
      ensures fresh(forwardDigest) && fresh(backwardDigest)
      ensures forwardDigest.absorbed == [] && backwardDigest.absorbed == []
    {
      this.mask := mask;
      this.hash := hash;
      this.ciphers := ciphers;
      forwardDigest := new RunningDigest(hash);
      backwardDigest := new RunningDigest(hash);
    }

    /** Last hop's layer first, entry's last, each cipher moving on by the payload length. */
    method OnionEncrypt(data: array<byte>)
      requires Valid()
      modifies ciphers, data
      ensures data[..] == Wrap(mask, old(Pairs()), old(data[..]))
      ensures Pairs() == SkipForwards(old(Pairs()), data.Length)
    {
      hide Through, Layer;
      ghost var was := Pairs();
      ghost var fs := Forwards(was);
      ghost var plain := data[..];
      var i := |ciphers|;
      assert Reverse(fs[i..]) == [];
      NoLayers(mask, plain);
      while i > 0
        invariant i <= |ciphers|
        invariant data[..] == Through(mask, Reverse(fs[i..]), plain)
        invariant forall j :: 0 <= j < i ==> ciphers[j].Value() == was[j]
        invariant forall j :: i <= j < |ciphers| ==>
                                ciphers[j].Value() == was[j].(forward := Skip(was[j].forward, data.Length))
      {
        i := i - 1;
        ciphers[i].ApplyForward(data);
        OuterLayer(mask, fs, i, plain);
      }
      assert fs[0..] == fs;
    }

    /** Entry's layer first, last hop's last. */
    method OnionDecrypt(data: array<byte>)
      requires Valid()
      modifies ciphers, data
      ensures data[..] == Unwrap(mask, old(Pairs()), old(data[..]))
      ensures Pairs() == SkipBackwards(old(Pairs()), data.Length)
    {
      hide Through, Layer;
      ghost var was := Pairs();
      ghost var bs := Backwards(was);
      ghost var sealed := data[..];
      NoLayers(mask, sealed);
      var i := 0;
      while i < |ciphers|
        invariant i <= |ciphers|
        invariant data[..] == Through(mask, bs[..i], sealed)
        invariant forall j :: i <= j < |ciphers| ==> ciphers[j].Value() == was[j]
        invariant forall j :: 0 <= j < i ==>
                                ciphers[j].Value() == was[j].(backward := Skip(was[j].backward, data.Length))
      {
        ciphers[i].ApplyBackward(data);
        InnerLayer(mask, bs, i, sealed);
        i := i + 1;
      }
      assert bs[..|bs|] == bs;
    }
  }
}
