/** Building a circuit hop by hop: CREATE to the entry relay, then EXTEND through all hops so far. */
module Telescope {
  import opened Common
  import opened Cells
  import opened Crypto
  import opened Onion
  import opened Pipeline
  import opened Relay
  import opened Handshake
  import opened ExtendCodec
  import Exit
  import Client
  import Network

  /** A relay as it runs, and as the directory describes it. */
  datatype Site = Site(address: seq<byte>, fingerprint: seq<byte>, secret: Bytes32)

  datatype Descriptor = Descriptor(address: seq<byte>, fingerprint: seq<byte>, public: Bytes32)

  /** What all parties run on: the suite, the foreign parsers and who listens where. */
  datatype Net = Net(suite: Suite, text: Text, sites: map<seq<byte>, Site>)

  datatype HopError =
    | NotEstablished | BadExtend(error: ExtendError) | Unreachable | NotCreated | CreatedTooShort | CreateTooShort
    | Refused(relay: RelayError) | Lost

  datatype BuildError =
    | PathTooShort | PayloadTooLarge | AtHop(error: HopError) | NotExtended | ExtendedTooShort | BadAuth

  /* The relay's part. */

  /** CREATE: agree on a key with whoever holds the client key in the payload. */
  function HandleCreate(g: Suite, site: Site, drawn: Bytes32, msg: Message): Result<(SessionKey, Message), HopError> {
    if |msg.data| < 32 then Err(CreateTooShort) else
    var reply := NtorServer(g, site.secret, g.public(site.secret), msg.data[..32], drawn);
    Ok((reply.key, CircuitMessage(msg.circuit, Created, reply.ephemeral + reply.auth)))
  }

  /** EXTEND, up to the connection to the next hop: peel, then read the payload. */
  function ReadExtend(x: Circ, t: Text, s: RelayState, msg: Message): (RelayState, Result<Extend, HopError>) {
    if s.cipher.None? then (s, Err(HopError.NotEstablished)) else
    var c := s.cipher.value.forward;
    (s.(cipher := Some(s.cipher.value.(forward := Skip(c, |msg.data|)))),
     match Parse(t, Layer(x.mask, c, msg.data))
     case Ok(e) => Ok(e)
     case Err(error) => Err(BadExtend(error)))
  }

  /** EXTEND, from the next hop's answer on: a middle relay checks its length, an entry relay does not. */
  function AnswerExtend(x: Circ, s: RelayState, created: Message): (RelayState, Result<Message, HopError>)
  {
    if created.command != Created then (s, Err(NotCreated))
    else if s.role == Middle && |created.data| < 32 then (s, Err(CreatedTooShort))
    else if s.cipher.None? then (s.(nextHop := true), Err(HopError.NotEstablished))
    else
      var c := s.cipher.value.backward;
      (s.(cipher := Some(s.cipher.value.(backward := Skip(c, |created.data|))), nextHop := true),
       Ok(CircuitMessage(x.id, Extended, Layer(x.mask, c, created.data))))
  }

  /** The handler's side of CREATE: a key is agreed, and fresh ciphers put in place. */
  method AcceptCreate(h: RelayHandler, g: Suite, site: Site, drawn: Bytes32, msg: Message)
    returns (r: Result<Message, HopError>)
    requires h.Valid()
    modifies h`cipher
    ensures h.Valid()
    ensures match HandleCreate(g, site, drawn, msg)
            case Ok(made) => r == Ok(made.1) && h.State() == old(h.State()).(cipher := Some(FreshPair(made.0)))
            case Err(error) => r == Err(error) && h.State() == old(h.State())
  {
    if |msg.data| < 32 {
      return Err(CreateTooShort);
    }
    var reply := NtorServer(g, site.secret, g.public(site.secret), msg.data[..32], drawn);
    h.Activate(reply.key);
    r := Ok(CircuitMessage(msg.circuit, Created, reply.ephemeral + reply.auth));
  }

  method PeelExtend(h: RelayHandler, t: Text, msg: Message) returns (r: Result<Extend, HopError>)
    requires h.Valid()
    modifies h.cipher
    ensures h.Valid() && (h.State(), r) == ReadExtend(h.x, t, old(h.State()), msg)
  {
    if h.cipher == null {
      return Err(HopError.NotEstablished);
    }
    var decrypted := ToArray(msg.data);
    h.cipher.ApplyForward(decrypted);
    match Parse(t, decrypted[..]) {
      case Ok(e) => r := Ok(e);
      case Err(error) => r := Err(BadExtend(error));
    }
  }

  method WrapExtended(h: RelayHandler, created: Message) returns (r: Result<Message, HopError>)
    requires h.Valid()
    modifies h`nextHop, h.cipher
    ensures h.Valid() && (h.State(), r) == AnswerExtend(h.x, old(h.State()), created)
  {
    if created.command != Created {
      return Err(NotCreated);
    }
    if h.role == Middle && |created.data| < 32 {
      return Err(CreatedTooShort);
    }
    h.nextHop := true;
    if h.cipher == null {
      return Err(HopError.NotEstablished);
    }
    var encrypted := ToArray(created.data);
    h.cipher.ApplyBackward(encrypted);
    r := Ok(CircuitMessage(h.x.id, Command.Extended, encrypted[..]));
  }

  /** The next hop answers the CREATE that a relay sends it. */
  function Dialled(x: Circ, net: Net, e: Extend, drawn: Bytes32): Result<(SessionKey, Message), HopError> {
    if e.address !in net.sites || net.sites[e.address].fingerprint != e.fingerprint then Err(Unreachable)
    else HandleCreate(net.suite, net.sites[e.address], drawn, CircuitMessage(x.id, Create, e.key))
  }

  /** The last hop so far, holding `s`, is told to extend. What it has spent by then stays spent. */
  function ExtendAt(x: Circ, net: Net, s: RelayState, msg: Message, drawn: Bytes32):
    (RelayState, Result<(SessionKey, Message), HopError>)
  {
    var (s1, read) := ReadExtend(x, net.text, s, msg);
    if read.Err? then (s1, Err(read.error)) else
    var dialled := Dialled(x, net, read.value, drawn);
    if dialled.Err? then (s1, Err(dialled.error)) else
    var (s2, answer) := AnswerExtend(x, s1, dialled.value.1);
    (s2, if answer.Err? then Err(answer.error) else Ok((dialled.value.0, answer.value)))
  }

  /** EXTEND passes hops that have a next hop, first to last. */
  function Outward(x: Circ, hops: seq<RelayState>, msg: Message): (r: Result<(seq<RelayState>, Message), HopError>)
    requires msg.command == Command.Extend
    requires forall s :: s in hops ==> s.nextHop
    ensures r.Ok? ==> |r.value.0| == |hops| && (forall s :: s in r.value.0 ==> s.nextHop)
    decreases |hops|
  {
    if hops == [] then Ok(([], msg)) else
    var (s, act) := ForwardStep(x, hops[0], msg);
    match act
    case Failed(error) => Err(Refused(error))
    case Forwarded(cell) =>
      (match Outward(x, hops[1..], cell)
       case Err(error) => Err(error)
       case Ok(rest) => Ok(([s] + rest.0, rest.1)))
    case _ => Err(Lost)
  }

  /** And comes back, last to first. */
  function Homeward(x: Circ, hops: seq<RelayState>, msg: Message): (r: Result<(seq<RelayState>, Message), HopError>)
    requires forall s :: s in hops ==> s.nextHop
    ensures r.Ok? ==> |r.value.0| == |hops| && (forall s :: s in r.value.0 ==> s.nextHop)
    decreases |hops|
  {
    if hops == [] then Ok(([], msg)) else
    var (s, act) := BackwardStep(x, hops[|hops| - 1], msg);
    match act
    case Failed(error) => Err(Refused(error))
    case Reply(cell) =>
      (match Homeward(x, hops[..|hops| - 1], cell)
       case Err(error) => Err(error)
       case Ok(rest) => Ok((rest.0 + [s], rest.1)))
    case _ => Err(Lost)
  }

  /** A hop gets a next one exactly if the answer was CREATED, and long enough where that is looked at. */
  lemma {:induction false} ExtendedIff(x: Circ, s: RelayState, created: Message)
    ensures var (s', r) := AnswerExtend(x, s, created);
            var good := created.command == Created && (s.role == Middle ==> |created.data| >= 32);
            && (s'.nextHop <==> s.nextHop || good) && (r.Ok? <==> good && s.cipher.Some?)
            && s'.role == s.role && (s.cipher.Some? <==> s'.cipher.Some?)
  {
  }

  /* The client's part. */

  /** The circuit so far: the client's pairs, the hops that have a next one, and the last hop's pair. */
  datatype Chain = Chain(ciphers: seq<Pair>, hops: seq<RelayState>, tip: Pair)

  function RoleAt(i: nat): Role {
    if i == 0 then Entry else Middle
  }

  function FinishWith(g: Suite, node: Descriptor, secret: Bytes32, data: seq<byte>): Result<SessionKey, BuildError> {
    if |data| < 64 then Err(ExtendedTooShort) else
    match NtorFinish(g, secret, g.public(secret), node.public, data[..32], data[32..64])
    case Err(_) => Err(BadAuth)
    case Ok(key) => Ok(key)
  }

  /** CREATE with the entry relay, in the clear. */
  function Opened(x: Circ, net: Net, node: Descriptor, secret: Bytes32, drawn: Bytes32): Result<Chain, BuildError> {
    var e := Request(node.address, net.suite.public(secret), node.fingerprint);
    match Dialled(x, net, e, drawn)
    case Err(error) => Err(AtHop(error))
    case Ok(created) =>
      match FinishWith(net.suite, node, secret, created.1.data)
      case Err(error) => Err(error)
      case Ok(key) => Ok(Chain([FreshPair(key)], [], FreshPair(created.0)))
  }

  function ExtendPayload(net: Net, node: Descriptor, secret: Bytes32): seq<byte> {
    Print(Request(node.address, net.suite.public(secret), node.fingerprint))
  }

  /** One EXTEND, out to the last hop and back. */
  function ExtendOnce(x: Circ, net: Net, c: Chain, node: Descriptor, secret: Bytes32,
      drawn: Bytes32): (r: Result<Chain, BuildError>)
    requires forall s :: s in c.hops ==> s.nextHop
    ensures r.Ok? ==> |r.value.hops| == |c.hops| + 1 && (forall s :: s in r.value.hops ==> s.nextHop)
  {
    var payload := ExtendPayload(net, node, secret);
    var cell := CircuitMessage(x.id, Command.Extend, Wrap(x.mask, c.ciphers, payload));
    var ciphers := SkipForwards(c.ciphers, |payload|);
    if !cell.Fits() then Err(PayloadTooLarge) else
    match Outward(x, c.hops, cell)
    case Err(error) => Err(AtHop(error))
    case Ok(out) =>
      var (last, done) := ExtendAt(x, net, RelayState(RoleAt(|c.hops|), Some(c.tip), false), out.1, drawn);
      if done.Err? then Err(AtHop(done.error))
      else
        match Homeward(x, out.0, done.value.1)
        case Err(error) => Err(AtHop(error))
        case Ok(home) =>
          if home.1.command != Command.Extended then Err(NotExtended) else
          match FinishWith(net.suite, node, secret, Unwrap(x.mask, ciphers, home.1.data))
          case Err(error) => Err(error)
          case Ok(key) =>
            Ok(Chain(SkipBackwards(ciphers, |home.1.data|) + [FreshPair(key)], home.0 + [last],
                FreshPair(done.value.0)))
  }

  /* What the chain keeps. */

  /** Every hop holds the pair the client holds for it, at the same positions. */
  ghost predicate Linked(c: Chain) {
    && |c.ciphers| == |c.hops| + 1
    && (forall i {:trigger c.hops[i]} ::
          0 <= i < |c.hops| ==> c.hops[i] == RelayState(RoleAt(i), Some(c.ciphers[i]), true))
    && c.tip == c.ciphers[|c.hops|]
  }

  /** Peel `n` payload bytes' worth of keystream off a hop's forward or backward half. */
  function HopsForward(hops: seq<RelayState>, n: nat): (r: seq<RelayState>)
    requires forall s :: s in hops ==> s.cipher.Some?
    ensures |r| == |hops|
  {
    seq(|hops|, i requires 0 <= i < |hops| =>
      hops[i].(cipher := Some(hops[i].cipher.value.(forward := Skip(hops[i].cipher.value.forward, n)))))
  }

  function HopsBackward(hops: seq<RelayState>, n: nat): (r: seq<RelayState>)
    requires forall s :: s in hops ==> s.cipher.Some?
    ensures |r| == |hops|
  {
    seq(|hops|, i requires 0 <= i < |hops| =>
      hops[i].(cipher := Some(hops[i].cipher.value.(backward := Skip(hops[i].cipher.value.backward, n)))))
  }

  function ForwardOf(hops: seq<RelayState>): (r: seq<Cipher>)
    requires forall s :: s in hops ==> s.cipher.Some?
    ensures |r| == |hops|
  {
    seq(|hops|, i requires 0 <= i < |hops| => hops[i].cipher.value.forward)
  }

  function BackwardOf(hops: seq<RelayState>): (r: seq<Cipher>)
    requires forall s :: s in hops ==> s.cipher.Some?
    ensures |r| == |hops|
  {
    seq(|hops|, i requires 0 <= i < |hops| => hops[i].cipher.value.backward)
  }

  lemma {:induction false} OutwardPeels(x: Circ, hops: seq<RelayState>, msg: Message)
    requires forall s :: s in hops ==> s.nextHop && s.cipher.Some?
    requires msg.command == Command.Extend
    ensures Outward(x, hops, msg)
            == Ok((HopsForward(hops, |msg.data|), msg.(data := Through(x.mask, ForwardOf(hops), msg.data))))
    decreases |hops|
  {
    if hops != [] {
      var c := hops[0].cipher.value.forward;
      var cell := msg.(data := Layer(x.mask, c, msg.data));
      OutwardPeels(x, hops[1..], cell);
      assert ForwardOf(hops)[1..] == ForwardOf(hops[1..]);
      assert HopsForward(hops, |msg.data|) == [HopsForward(hops, |msg.data|)[0]] + HopsForward(hops[1..], |msg.data|);
    }
  }

  lemma {:induction false} HomewardWraps(x: Circ, hops: seq<RelayState>, msg: Message)
    requires forall s :: s in hops ==> s.nextHop && s.cipher.Some?
    requires msg.command != Destroy
    ensures Homeward(x, hops, msg)
            == Ok((HopsBackward(hops, |msg.data|), msg.(data := Through(x.mask, Reverse(BackwardOf(hops)), msg.data))))
    decreases |hops|
  {
    if hops != [] {
      var k := |hops| - 1;
      var c := hops[k].cipher.value.backward;
      var cell := msg.(data := Layer(x.mask, c, msg.data));
      HomewardWraps(x, hops[..k], cell);
      assert Reverse(BackwardOf(hops))[1..] == Reverse(BackwardOf(hops[..k]));
      assert HopsBackward(hops, |msg.data|)
          == HopsBackward(hops[..k], |msg.data|) + [HopsBackward(hops, |msg.data|)[k]];
    }
  }

  /** Who answers at the node's address is the node: it has the fingerprint and holds the secret of the key
      that the directory lists. */
  ghost predicate Genuine(net: Net, node: Descriptor) {
    && node.address in net.sites
    && net.sites[node.address].fingerprint == node.fingerprint
    && net.suite.public(net.sites[node.address].secret) == node.public
  }

  /** The directory describes a node as it is, and its texts are well formed. */
  ghost predicate Listed(net: Net, node: Descriptor) {
    && Genuine(net, node) && 0 !in node.address
    && net.text.utf8(node.address) && net.text.utf8(node.fingerprint) && net.text.socketAddress(node.address)
  }

  /** The key that a node and the client agree on. */
  function AgreedKey(net: Net, node: Descriptor, secret: Bytes32, drawn: Bytes32): SessionKey
    requires node.address in net.sites
  {
    NtorServer(net.suite, net.sites[node.address].secret, node.public, net.suite.public(secret), drawn).key
  }

  /** The client accepts an answer exactly if its second half is the tag it computes for itself. */
  lemma {:induction false} FinishAccepts(g: Suite, node: Descriptor, secret: Bytes32, data: seq<byte>)
    ensures |data| < 64 ==> FinishWith(g, node, secret, data) == Err(ExtendedTooShort)
    ensures |data| >= 64 ==>
              var shared := SecretInput(g.dh(secret, data[..32]), g.dh(secret, node.public), node.public,
                  g.public(secret), data[..32]);
              var good := data[32..64] == AuthTag(g, shared, node.public, data[..32], g.public(secret));
              && (FinishWith(g, node, secret, data).Ok? <==> good)
              && (FinishWith(g, node, secret, data) == Err(BadAuth) <==> !good)
  {
  }

  /** The tags that the client compares with those of whoever answers at the node's address do not collide. */
  ghost predicate TagsApart(net: Net, node: Descriptor, secret: Bytes32, drawn: Bytes32) {
    node.address in net.sites ==>
      var g, site := net.suite, net.sites[node.address].secret;
      var server, client, ephemeral := g.public(site), g.public(secret), g.public(drawn);
      var mine := SecretInput(g.dh(secret, ephemeral), g.dh(secret, node.public), node.public, client, ephemeral);
      var theirs := SecretInput(g.dh(drawn, client), g.dh(site, client), server, client, ephemeral);
      && Apart(g, T_VERIFY, mine, theirs)
      && Apart(g, T_MAC, AuthInput(g, mine, node.public, ephemeral, client),
               AuthInput(g, theirs, server, ephemeral, client))
  }

  /** Whoever answers: if the client accepts, it is the node, and both hold the same key. */
  lemma {:induction false} CreateBinds(x: Circ, net: Net, node: Descriptor, secret: Bytes32, drawn: Bytes32)
    requires TagsApart(net, node, secret, drawn)
    ensures var d := Dialled(x, net, Request(node.address, net.suite.public(secret), node.fingerprint), drawn);
            d.Ok? ==>
              && d.value.1.command == Created && |d.value.1.data| == 64
              && (var finish := FinishWith(net.suite, node, secret, d.value.1.data);
                  finish.Ok? ==> Genuine(net, node) && finish.value == d.value.0 == AgreedKey(net, node, secret, drawn))
  {
    hide ExpandKeySeed, AuthTag, AuthInput, SecretInput;
    var g, d := net.suite, Dialled(x, net, Request(node.address, net.suite.public(secret), node.fingerprint), drawn);
    if d.Ok? {
      var site := net.sites[node.address];
      var client := g.public(secret);
      var reply := NtorServer(g, site.secret, g.public(site.secret), client, drawn);
      assert client[..32] == client;
      var data := reply.ephemeral + reply.auth;
      assert data[..32] == reply.ephemeral && data[32..64] == reply.auth;
      NtorBinds(g, secret, client, node.public, site.secret, g.public(site.secret), client, drawn);
    }
  }

  /** The node's CREATED payload makes the client agree on the same key. */
  lemma {:induction false} CreateAgrees(x: Circ, net: Net, node: Descriptor, secret: Bytes32, drawn: Bytes32)
    requires Commutes(net.suite) && Listed(net, node)
    ensures var d := Dialled(x, net, Request(node.address, net.suite.public(secret), node.fingerprint), drawn);
            && d.Ok? && d.value.0 == AgreedKey(net, node, secret, drawn)
            && d.value.1.command == Created && |d.value.1.data| == 64
            && FinishWith(net.suite, node, secret, d.value.1.data) == Ok(AgreedKey(net, node, secret, drawn))
  {
    var site := net.sites[node.address];
    var reply := NtorServer(net.suite, site.secret, node.public, net.suite.public(secret), drawn);
    var data := reply.ephemeral + reply.auth;
    assert net.suite.public(secret)[..32] == net.suite.public(secret);
    assert data[..32] == reply.ephemeral && data[32..64] == reply.auth;
    NtorAgreement(net.suite, secret, site.secret, drawn, reply.auth);
  }

  lemma {:induction false} LinkedForward(c: Chain)
    requires Linked(c)
    ensures (forall s :: s in c.hops ==> s.nextHop && s.cipher.Some?)
    ensures ForwardOf(c.hops) + [c.tip.forward] == Forwards(c.ciphers)
    ensures BackwardOf(c.hops) + [c.tip.backward] == Backwards(c.ciphers)
  {
  }

  /** The last hop takes off the last layer: it reads exactly what the client printed. */
  lemma {:induction false} TipReads(x: Circ, net: Net, c: Chain, payload: seq<byte>)
    requires Linked(c)
    ensures forall s :: s in c.hops ==> s.nextHop && s.cipher.Some?
    ensures Layer(x.mask, c.tip.forward, Through(x.mask, ForwardOf(c.hops), Wrap(x.mask, c.ciphers, payload)))
        == payload
  {
    LinkedForward(c);
    var fs, inner := Forwards(c.ciphers), Wrap(x.mask, c.ciphers, payload);
    ThroughAppend(x.mask, ForwardOf(c.hops), [c.tip.forward], inner);
    assert [c.tip.forward][1..] == [];
    ThroughAppend(x.mask, Reverse(fs), fs, payload);
    LayersCancel(x.mask, fs, payload);
  }

  /** And the client takes off what the hops put on: it recovers exactly the answer. */
  lemma {:induction false} ClientReads(x: Circ, c: Chain, answer: seq<byte>)
    requires Linked(c)
    ensures forall s :: s in c.hops ==> s.nextHop && s.cipher.Some?
    ensures Unwrap(x.mask, c.ciphers, Through(x.mask, Reverse(BackwardOf(c.hops)), Layer(x.mask, c.tip.backward,
        answer)))
            == answer
  {
    LinkedForward(c);
    var bs, once := Backwards(c.ciphers), Layer(x.mask, c.tip.backward, answer);
    assert Reverse(bs) == [c.tip.backward] + Reverse(BackwardOf(c.hops));
    ThroughAppend(x.mask, [c.tip.backward], Reverse(BackwardOf(c.hops)), answer);
    assert [c.tip.backward][1..] == [];
    ThroughAppend(x.mask, Reverse(bs), bs, answer);
    LayersCancel(x.mask, bs, answer);
  }

  /** All of a chain's ciphers after one EXTEND of `n` payload bytes and its 64-byte answer. */
  function Spent(ps: seq<Pair>, n: nat): (r: seq<Pair>)
    ensures |r| == |ps|
  {
    SkipBackwards(SkipForwards(ps, n), 64)
  }

  function SpentPair(p: Pair, n: nat): Pair {
    Pair(Skip(p.forward, n), Skip(p.backward, 64))
  }

  /** The last hop's whole turn: it connects to the hop the client named and passes its answer on. */
  lemma {:induction false} TipAnswers(x: Circ, net: Net, role: Role, tip: Pair, msg: Message, node: Descriptor,
      secret: Bytes32, drawn: Bytes32)
    requires Commutes(net.suite) && Listed(net, node)
    requires Layer(x.mask, tip.forward, msg.data) == ExtendPayload(net, node, secret)
    ensures var d := Dialled(x, net, Request(node.address, net.suite.public(secret), node.fingerprint), drawn);
            && d.Ok? && |d.value.1.data| == 64
            && ExtendAt(x, net, RelayState(role, Some(tip), false), msg, drawn)
               == (RelayState(role, Some(SpentPair(tip, |msg.data|)), true),
                   Ok((AgreedKey(net, node, secret, drawn),
                       CircuitMessage(x.id, Command.Extended, Layer(x.mask, tip.backward, d.value.1.data)))))
  {
    hide Print, Parse, NtorServer;
    ParsePrint(net.text, Request(node.address, net.suite.public(secret), node.fingerprint));
    CreateAgrees(x, net, node, secret, drawn);
  }

  /** Linked again, all positions moved on together, with one hop more. */
  lemma {:induction false} LinkedGrows(c: Chain, n: nat, key: SessionKey)
    requires Linked(c)
    ensures forall s :: s in c.hops ==> s.nextHop && s.cipher.Some?
    ensures (forall s :: s in HopsForward(c.hops, n) ==> s.nextHop && s.cipher.Some?)
    ensures Linked(Chain(Spent(c.ciphers, n) + [FreshPair(key)],
                         HopsBackward(HopsForward(c.hops, n), 64) + [RelayState(RoleAt(|c.hops|),
                             Some(SpentPair(c.tip, n)), true)],
                         FreshPair(key)))
  {
  }

  /** One extension: exactly when the payload fits, the chain is one hop longer, all positions agree
      again, and both ends of the new hop hold the key they agreed on. */
  lemma {:induction false} ExtendLinks(x: Circ, net: Net, c: Chain, node: Descriptor, secret: Bytes32, drawn: Bytes32)
    requires Commutes(net.suite) && Linked(c) && Listed(net, node)
    ensures forall s :: s in c.hops ==> s.nextHop
    ensures var n, r := |ExtendPayload(net, node, secret)|, ExtendOnce(x, net, c, node, secret, drawn);
            && (n > MAX_PAYLOAD_SIZE ==> r == Err(PayloadTooLarge))
            && (n <= MAX_PAYLOAD_SIZE ==>
                  && r.Ok? && Linked(r.value)
                  && r.value.ciphers == Spent(c.ciphers, n) + [FreshPair(AgreedKey(net, node, secret, drawn))])
  {
    hide Linked, ExtendAt, Dialled, FinishWith, AgreedKey, ExtendPayload;
    LinkedForward(c);
    var payload := ExtendPayload(net, node, secret);
    var n := |payload|;
    var cell := CircuitMessage(x.id, Command.Extend, Wrap(x.mask, c.ciphers, payload));
    if n <= MAX_PAYLOAD_SIZE {
      OutwardPeels(x, c.hops, cell);
      var out := Outward(x, c.hops, cell).value;
      TipReads(x, net, c, payload);
      TipAnswers(x, net, RoleAt(|c.hops|), c.tip, out.1, node, secret, drawn);
      var created := Dialled(x, net, Request(node.address, net.suite.public(secret), node.fingerprint), drawn).value.1;
      CreateAgrees(x, net, node, secret, drawn);
      var back := CircuitMessage(x.id, Command.Extended, Layer(x.mask, c.tip.backward, created.data));
      LinkedGrows(c, n, AgreedKey(net, node, secret, drawn));
      HomewardWraps(x, out.0, back);
      assert BackwardOf(out.0) == BackwardOf(c.hops);
      assert Backwards(SkipForwards(c.ciphers, n)) == Backwards(c.ciphers);
      ClientReads(x, c, created.data);
    }
  }

  /** The last hop's turn when it does not fail: it has read the client's request, and passes on what answered. */
  lemma {:induction false} TipPasses(x: Circ, net: Net, role: Role, tip: Pair, msg: Message, node: Descriptor,
      secret: Bytes32, drawn: Bytes32)
    requires Layer(x.mask, tip.forward, msg.data) == ExtendPayload(net, node, secret) && 0 !in node.address
    requires ExtendAt(x, net, RelayState(role, Some(tip), false), msg, drawn).1.Ok?
    requires TagsApart(net, node, secret, drawn)
    ensures var d := Dialled(x, net, Request(node.address, net.suite.public(secret), node.fingerprint), drawn);
            && d.Ok? && |d.value.1.data| == 64
            && ExtendAt(x, net, RelayState(role, Some(tip), false), msg, drawn)
               == (RelayState(role, Some(SpentPair(tip, |msg.data|)), true),
                   Ok((d.value.0,
                       CircuitMessage(x.id, Command.Extended, Layer(x.mask, tip.backward, d.value.1.data)))))
  {
    hide Print, Parse, NtorServer, FinishWith;
    var payload := ExtendPayload(net, node, secret);
    var e := Request(node.address, net.suite.public(secret), node.fingerprint);
    PrintParse(net.text, payload);
    PrintInjective(Parse(net.text, payload).value, e);
    CreateBinds(x, net, node, secret, drawn);
  }

  /** One extension, whoever answers: if it succeeds, the node is who the directory says, and the chain is linked. */
  lemma {:induction false} ExtendBinds(x: Circ, net: Net, c: Chain, node: Descriptor, secret: Bytes32, drawn: Bytes32)
    requires Linked(c) && 0 !in node.address && TagsApart(net, node, secret, drawn)
    ensures forall s :: s in c.hops ==> s.nextHop
    ensures var n, r := |ExtendPayload(net, node, secret)|, ExtendOnce(x, net, c, node, secret, drawn);
            r.Ok? ==>
              && n <= MAX_PAYLOAD_SIZE && Genuine(net, node) && Linked(r.value)
              && r.value.ciphers == Spent(c.ciphers, n) + [FreshPair(AgreedKey(net, node, secret, drawn))]
  {
    hide Linked, ExtendAt, Dialled, FinishWith, AgreedKey, ExtendPayload, Genuine, TagsApart;
    LinkedForward(c);
    var payload := ExtendPayload(net, node, secret);
    var n := |payload|;
    var cell := CircuitMessage(x.id, Command.Extend, Wrap(x.mask, c.ciphers, payload));
    if ExtendOnce(x, net, c, node, secret, drawn).Ok? {
      OutwardPeels(x, c.hops, cell);
      var out := Outward(x, c.hops, cell).value;
      TipReads(x, net, c, payload);
      TipPasses(x, net, RoleAt(|c.hops|), c.tip, out.1, node, secret, drawn);
      var d := Dialled(x, net, Request(node.address, net.suite.public(secret), node.fingerprint), drawn).value;
      CreateBinds(x, net, node, secret, drawn);
      LinkedGrows(c, n, d.0);
      HomewardWraps(x, out.0, CircuitMessage(x.id, Command.Extended, Layer(x.mask, c.tip.backward, d.1.data)));
      assert BackwardOf(out.0) == BackwardOf(c.hops);
      assert Backwards(SkipForwards(c.ciphers, n)) == Backwards(c.ciphers);
      ClientReads(x, c, d.1.data);
    }
  }

  lemma {:induction false} OpenBinds(x: Circ, net: Net, node: Descriptor, secret: Bytes32, drawn: Bytes32)
    requires TagsApart(net, node, secret, drawn)
    ensures var r := Opened(x, net, node, secret, drawn);
            r.Ok? ==> Genuine(net, node) && Linked(r.value)
                      && r.value.ciphers == [FreshPair(AgreedKey(net, node, secret, drawn))]
  {
    hide Dialled, FinishWith, Genuine, TagsApart;
    CreateBinds(x, net, node, secret, drawn);
  }

  lemma {:induction false} OpenLinks(x: Circ, net: Net, node: Descriptor, secret: Bytes32, drawn: Bytes32)
    requires Commutes(net.suite) && Listed(net, node)
    ensures var r := Opened(x, net, node, secret, drawn);
            r.Ok? && Linked(r.value) && r.value.ciphers == [FreshPair(AgreedKey(net, node, secret, drawn))]
  {
    hide Dialled, FinishWith;
    CreateAgrees(x, net, node, secret, drawn);
  }

  /* The whole build. */

  predicate PayloadsFit(net: Net, path: seq<Descriptor>, secrets: seq<Bytes32>, n: nat)
    requires n <= |path| == |secrets|
  {
    forall i {:trigger path[i]} :: 1 <= i < n ==> |ExtendPayload(net, path[i], secrets[i])| <= MAX_PAYLOAD_SIZE
  }

  /** Payload bytes of the EXTENDs for hops `from..to`. */
  function ExtendBytes(net: Net, path: seq<Descriptor>, secrets: seq<Bytes32>, from: nat, to: nat): nat
    requires from <= to <= |path| == |secrets|
  {
    if from == to then 0
    else ExtendBytes(net, path, secrets, from, to - 1) + |ExtendPayload(net, path[to - 1], secrets[to - 1])|
  }

  /** The client's pair for hop `i` once `n` hops are in: the agreed key, moved on by every later EXTEND
      and every answer to one. */
  function PairAfter(net: Net, path: seq<Descriptor>, secrets: seq<Bytes32>, draws: seq<Bytes32>, i: nat, n: nat): Pair
    requires i < n <= |path| == |secrets| == |draws| && path[i].address in net.sites
  {
    var key := AgreedKey(net, path[i], secrets[i], draws[i]);
    Pair(Cipher(key.forward, ExtendBytes(net, path, secrets, i + 1, n)), Cipher(key.backward, 64 * (n - 1 - i)))
  }

  ghost predicate AllListed(net: Net, path: seq<Descriptor>) {
    forall i {:trigger path[i]} :: 0 <= i < |path| ==> Listed(net, path[i])
  }

  ghost predicate AllGenuine(net: Net, path: seq<Descriptor>, n: nat)
    requires n <= |path|
  {
    forall i {:trigger path[i]} :: 0 <= i < n ==> Genuine(net, path[i])
  }

  ghost predicate Telescoped(net: Net, path: seq<Descriptor>, secrets: seq<Bytes32>, draws: seq<Bytes32>, c: Chain,
      n: nat)
    requires n <= |path| == |secrets| == |draws|
  {
    && AllGenuine(net, path, n) && Linked(c) && |c.ciphers| == n
    && forall i {:trigger c.ciphers[i]} :: 0 <= i < n ==> c.ciphers[i] == PairAfter(net, path, secrets, draws, i, n)
  }

  lemma {:induction false} TelescopeGrows(net: Net, path: seq<Descriptor>, secrets: seq<Bytes32>,
      draws: seq<Bytes32>, c: Chain, n: nat, c': Chain)
    requires 0 < n < |path| == |secrets| == |draws| && Telescoped(net, path, secrets, draws, c, n)
    requires Genuine(net, path[n]) && Linked(c')
    requires c'.ciphers == Spent(c.ciphers, |ExtendPayload(net, path[n], secrets[n])|)
                           + [FreshPair(AgreedKey(net, path[n], secrets[n], draws[n]))]
    ensures Telescoped(net, path, secrets, draws, c', n + 1)
  {
    hide ExtendPayload, Linked, AgreedKey;
    forall i | 0 <= i < n + 1 ensures c'.ciphers[i] == PairAfter(net, path, secrets, draws, i, n + 1) {
      assert i < n ==> c.ciphers[i] == PairAfter(net, path, secrets, draws, i, n);
    }
  }

  /** DH commutes and the directory describes every node of the path as it is. */
  ghost predicate Honest(net: Net, path: seq<Descriptor>) {
    Commutes(net.suite) && AllListed(net, path)
  }

  /** Nothing is known of who answers where, nor of DH: addresses print without zeros, and no tags collide. */
  ghost predicate Unforged(net: Net, path: seq<Descriptor>, secrets: seq<Bytes32>, draws: seq<Bytes32>)
    requires |path| == |secrets| == |draws|
  {
    forall i {:trigger path[i]} ::
      0 <= i < |path| ==> 0 !in path[i].address && TagsApart(net, path[i], secrets[i], draws[i])
  }

  ghost predicate Progress(net: Net, path: seq<Descriptor>, secrets: seq<Bytes32>, draws: seq<Bytes32>, c: Chain,
      n: nat)
    requires n <= |path| == |secrets| == |draws|
  {
    Honest(net, path) || Unforged(net, path, secrets, draws) ==>
      PayloadsFit(net, path, secrets, n) && Telescoped(net, path, secrets, draws, c, n)
  }

  lemma {:induction false} OpenProgress(x: Circ, net: Net, path: seq<Descriptor>, secrets: seq<Bytes32>,
      draws: seq<Bytes32>)
    requires 3 <= |path| == |secrets| == |draws|
    ensures var r := Opened(x, net, path[0], secrets[0], draws[0]);
            && (Honest(net, path) ==> r.Ok?)
            && (r.Ok? ==> Progress(net, path, secrets, draws, r.value, 1))
  {
    hide Opened, Linked, AgreedKey, TagsApart;
    if Honest(net, path) {
      assert Listed(net, path[0]);
      OpenLinks(x, net, path[0], secrets[0], draws[0]);
    } else if Unforged(net, path, secrets, draws) {
      assert TagsApart(net, path[0], secrets[0], draws[0]);
      OpenBinds(x, net, path[0], secrets[0], draws[0]);
    }
  }

  lemma {:induction false} ExtendProgress(x: Circ, net: Net, path: seq<Descriptor>, secrets: seq<Bytes32>,
      draws: seq<Bytes32>, c: Chain, n: nat)
    requires 0 < n < |path| == |secrets| == |draws| && Progress(net, path, secrets, draws, c, n)
    requires forall s :: s in c.hops ==> s.nextHop
    ensures var r := ExtendOnce(x, net, c, path[n], secrets[n], draws[n]);
            && (Honest(net, path) && PayloadsFit(net, path, secrets, |path|) ==> r.Ok?)
            && (r.Ok? ==> Progress(net, path, secrets, draws, r.value, n + 1))
  {
    hide ExtendOnce, ExtendPayload, Linked, AgreedKey, TagsApart, PairAfter, Genuine, Commutes;
    var r := ExtendOnce(x, net, c, path[n], secrets[n], draws[n]);
    if Honest(net, path) {
      assert Listed(net, path[n]);
      ExtendLinks(x, net, c, path[n], secrets[n], draws[n]);
      if r.Ok? {
        hide Telescoped;
        TelescopeGrows(net, path, secrets, draws, c, n, r.value);
      }
    } else if Unforged(net, path, secrets, draws) && r.Ok? {
      assert 0 !in path[n].address;
      ExtendBinds(x, net, c, path[n], secrets[n], draws[n]);
      hide Telescoped;
      TelescopeGrows(net, path, secrets, draws, c, n, r.value);
    }
  }

  /** The build loop. With the directory right, it succeeds exactly when the path has three hops and
      every EXTEND fits in a cell. And whenever it succeeds, even if nothing is known of who answers, every
      hop is the node that the directory lists, and the chain is linked, hop by hop, along the path. */
  method Build(x: Circ, net: Net, path: seq<Descriptor>, secrets: seq<Bytes32>, draws: seq<Bytes32>)
    returns (r: Result<Chain, BuildError>)
    requires |path| == |secrets| == |draws|
    ensures Honest(net, path) ==> (r.Ok? <==> |path| >= 3 && PayloadsFit(net, path, secrets, |path|))
    ensures r.Ok? && (Honest(net, path) || Unforged(net, path, secrets, draws)) ==>
              && PayloadsFit(net, path, secrets, |path|)
              && (forall i {:trigger path[i]} :: 0 <= i < |path| ==>
                    && path[i].address in net.sites
                    && net.sites[path[i].address].fingerprint == path[i].fingerprint
                    && net.suite.public(net.sites[path[i].address].secret) == path[i].public)
              && Telescoped(net, path, secrets, draws, r.value, |path|)
    ensures |path| < 3 ==> r == Err(PathTooShort)
    ensures r.Ok? ==> |path| >= 3 && |r.value.hops| == |path| - 1
  {
    hide Linked, PayloadsFit, ExtendOnce, PairAfter;
    if |path| < 3 {
      return Err(PathTooShort);
    }
    var entry := Opened(x, net, path[0], secrets[0], draws[0]);
    OpenProgress(x, net, path, secrets, draws);
    if entry.Err? {
      return entry;
    }
    var c := entry.value;
    var hop := 1;
    while hop < |path|
      invariant 1 <= hop <= |path| && |c.hops| == hop - 1
      invariant forall s :: s in c.hops ==> s.nextHop
      invariant Progress(net, path, secrets, draws, c, hop)
    {
      hide Progress, Honest, Unforged;
      var longer := ExtendOnce(x, net, c, path[hop], secrets[hop], draws[hop]);
      ExtendProgress(x, net, path, secrets, draws, c, hop);
      if longer.Err? {
        return longer;
      }
      c := longer.value;
      hop := hop + 1;
    }
    r := Ok(c);
  }

  /** A built chain is exactly where the runs of module Network start. */
  lemma {:induction false} ChainStartsNetwork(c: Chain)
    requires Linked(c) && |c.ciphers| >= 3
    ensures var w := Network.Built(c.ciphers);
            && w.client == Client.FreshClient(c.ciphers) && w.relays == c.hops
            && w.exit == Exit.ExitState(Some(Exit.ExitCrypto(c.tip, [], [])), map[], [])
  {
  }
}
