/** The ntor handshake between the client and one relay, over abstract DH and HMAC. */
module Handshake {
  import opened Common
  import opened Crypto

  type Bytes32 = s: seq<byte> | |s| == 32 witness seq(32, _ => 0)

  /** `public(a)` is the public key of secret `a`, `dh(a, B)` the shared point, `hmac(key, data)` the tag. */
  datatype Suite = Suite(
    public: Bytes32 -> Bytes32, dh: (Bytes32, Bytes32) -> Bytes32, hmac: (seq<byte>, seq<byte>) -> Bytes32)

  /** Both sides get the same point, as in section 6.1 of RFC 7748. */
  ghost predicate Commutes(g: Suite) {
    forall a, b {:trigger g.dh(a, g.public(b))} :: g.dh(a, g.public(b)) == g.dh(b, g.public(a))
  }

  const PROTOID: seq<byte> := Ascii("ntor-curve25519-sha256-1")
  const T_KEY: seq<byte> := PROTOID + Ascii(":key_extract")
  const T_VERIFY: seq<byte> := PROTOID + Ascii(":verify")
  const T_MAC: seq<byte> := PROTOID + Ascii(":mac")
  const M_EXPAND: seq<byte> := PROTOID + Ascii(":key_expand")

  function SecretInput(exp1: Bytes32, exp2: Bytes32, server: Bytes32, client: Bytes32, ephemeral: Bytes32): seq<byte> {
    exp1 + exp2 + server + client + ephemeral + PROTOID
  }

  function ExpandKeySeed(g: Suite, seed: Bytes32): SessionKey {
    var material := g.hmac(M_EXPAND, seed);
    SessionKey(material[..16], material[16..])
  }

  function AuthInput(g: Suite, secret: seq<byte>, server: Bytes32, ephemeral: Bytes32, client: Bytes32): seq<byte> {
    g.hmac(T_VERIFY, secret) + server + ephemeral + client + PROTOID + Ascii("Server")
  }

  function AuthTag(g: Suite, secret: seq<byte>, server: Bytes32, ephemeral: Bytes32, client: Bytes32): Bytes32 {
    g.hmac(T_MAC, AuthInput(g, secret, server, ephemeral, client))
  }

  datatype ServerReply = ServerReply(ephemeral: Bytes32, auth: Bytes32, key: SessionKey)

  /** The relay's side, for its static pair, the client's public key and the ephemeral secret it drew. */
  function NtorServer(g: Suite, secret: Bytes32, public: Bytes32, client: Bytes32, drawn: Bytes32): ServerReply {
    var ephemeral := g.public(drawn);
    var input := SecretInput(g.dh(drawn, client), g.dh(secret, client), public, client, ephemeral);
    ServerReply(ephemeral, AuthTag(g, input, public, ephemeral, client), ExpandKeySeed(g, g.hmac(T_KEY, input)))
  }

  datatype AuthFailed = AuthFailed

  /** The client's side, once the relay's answer is in. */
  function NtorFinish(g: Suite, secret: Bytes32, client: Bytes32, server: Bytes32, ephemeral: Bytes32, auth: Bytes32):
    Result<SessionKey, AuthFailed>
  {
    var input := SecretInput(g.dh(secret, ephemeral), g.dh(secret, server), server, client, ephemeral);
    if auth != AuthTag(g, input, server, ephemeral, client) then Err(AuthFailed)
    else Ok(ExpandKeySeed(g, g.hmac(T_KEY, input)))
  }

  /** With commuting DH the client accepts exactly the tag that the holder of the static secret sends
      for this client key and this ephemeral key, and then both sides hold the same session key. */
  lemma {:induction false} NtorAgreement(g: Suite, client: Bytes32, secret: Bytes32, drawn: Bytes32, auth: Bytes32)
    requires Commutes(g)
    ensures var reply := NtorServer(g, secret, g.public(secret), g.public(client), drawn);
            var finish := NtorFinish(g, client, g.public(client), g.public(secret), reply.ephemeral, auth);
            && (finish.Ok? <==> auth == reply.auth)
            && (finish.Ok? ==> finish.value == reply.key)
  {
    assert g.dh(client, g.public(drawn)) == g.dh(drawn, g.public(client));
    assert g.dh(client, g.public(secret)) == g.dh(secret, g.public(client));
  }

  /** These two inputs do not collide under this key; asked for single pairs only, as tags are finite. */
  ghost predicate Apart(g: Suite, key: seq<byte>, a: seq<byte>, b: seq<byte>) {
    g.hmac(key, a) == g.hmac(key, b) ==> a == b
  }

  lemma {:induction false} SameAuthInput(g: Suite, a: seq<byte>, b: seq<byte>, server: Bytes32, server': Bytes32,
                                         ephemeral: Bytes32, ephemeral': Bytes32, client: Bytes32, client': Bytes32)
    requires AuthInput(g, a, server, ephemeral, client) == AuthInput(g, b, server', ephemeral', client')
    ensures server == server' && ephemeral == ephemeral' && client == client'
        && g.hmac(T_VERIFY, a) == g.hmac(T_VERIFY, b)
  {
    var p, q := AuthInput(g, a, server, ephemeral, client), AuthInput(g, b, server', ephemeral', client');
    assert p[..32] == g.hmac(T_VERIFY, a) && q[..32] == g.hmac(T_VERIFY, b);
    assert p[32..64] == server && q[32..64] == server';
    assert p[64..96] == ephemeral && q[64..96] == ephemeral';
    assert p[96..128] == client && q[96..128] == client';
  }

  /** Whoever made the reply, and for whichever client: if this client accepts it, it was made under the
      static key the client asked for and for this client's key, and both sides hold the same session
      key. No property of DH is needed, only that the tags compared do not collide. */
  lemma {:induction false} NtorBinds(g: Suite, secret: Bytes32, client: Bytes32, server: Bytes32,
                                     otherSecret: Bytes32, other: Bytes32, otherClient: Bytes32, drawn: Bytes32)
    requires var reply := NtorServer(g, otherSecret, other, otherClient, drawn);
             var mine := SecretInput(g.dh(secret, reply.ephemeral), g.dh(secret, server), server, client,
                 reply.ephemeral);
             var theirs := SecretInput(g.dh(drawn, otherClient), g.dh(otherSecret, otherClient), other,
                 otherClient, reply.ephemeral);
             && Apart(g, T_VERIFY, mine, theirs)
             && Apart(g, T_MAC, AuthInput(g, mine, server, reply.ephemeral, client),
                      AuthInput(g, theirs, other, reply.ephemeral, otherClient))
    ensures var reply := NtorServer(g, otherSecret, other, otherClient, drawn);
            var finish := NtorFinish(g, secret, client, server, reply.ephemeral, reply.auth);
            finish.Ok? ==> other == server && otherClient == client && finish.value == reply.key
  {
    var reply := NtorServer(g, otherSecret, other, otherClient, drawn);
    var mine := SecretInput(g.dh(secret, reply.ephemeral), g.dh(secret, server), server, client, reply.ephemeral);
    var theirs := SecretInput(g.dh(drawn, otherClient), g.dh(otherSecret, otherClient), other, otherClient,
        reply.ephemeral);
    if NtorFinish(g, secret, client, server, reply.ephemeral, reply.auth).Ok? {
      SameAuthInput(g, mine, theirs, server, other, reply.ephemeral, reply.ephemeral, client, otherClient);
    }
  }

  /* What a session key says of the handshake it came from. */

  /** The four uses of HMAC are under four keys. */
  lemma {:induction false} LabelsDiffer()
    ensures |T_KEY| == |PROTOID| + 12 && |T_VERIFY| == |PROTOID| + 7
    ensures |T_MAC| == |PROTOID| + 4 && |M_EXPAND| == |PROTOID| + 11
    ensures T_KEY != T_VERIFY && T_KEY != T_MAC && T_KEY != M_EXPAND
    ensures T_VERIFY != T_MAC && T_VERIFY != M_EXPAND && T_MAC != M_EXPAND
  {
  }

  /** A session key is all of its key material, one half each way. */
  lemma {:induction false} KeyIsMaterial(g: Suite, seed: Bytes32)
    ensures var key := ExpandKeySeed(g, seed);
            |key.forward| == |key.backward| == 16 && key.forward + key.backward == g.hmac(M_EXPAND, seed)
  {
  }

  lemma {:induction false} SameSecretInput(a: Bytes32, b: Bytes32, server: Bytes32, client: Bytes32, ephemeral: Bytes32,
      a': Bytes32, b': Bytes32, server': Bytes32, client': Bytes32, ephemeral': Bytes32)
    requires SecretInput(a, b, server, client, ephemeral) == SecretInput(a', b', server', client', ephemeral')
    ensures a == a' && b == b' && server == server' && client == client' && ephemeral == ephemeral'
  {
    var p, q := SecretInput(a, b, server, client, ephemeral), SecretInput(a', b', server', client', ephemeral');
    assert p[..32] == a && q[..32] == a';
    assert p[32..64] == b && q[32..64] == b';
    assert p[64..96] == server && q[64..96] == server';
    assert p[96..128] == client && q[96..128] == client';
    assert p[128..160] == ephemeral && q[128..160] == ephemeral';
  }

  lemma {:induction false} SameSeed(g: Suite, a: seq<byte>, b: seq<byte>)
    requires Apart(g, T_KEY, a, b) && Apart(g, M_EXPAND, g.hmac(T_KEY, a), g.hmac(T_KEY, b))
    requires ExpandKeySeed(g, g.hmac(T_KEY, a)) == ExpandKeySeed(g, g.hmac(T_KEY, b))
    ensures a == b
  {
    KeyIsMaterial(g, g.hmac(T_KEY, a));
    KeyIsMaterial(g, g.hmac(T_KEY, b));
  }

  /** Two handshakes of relays give the same session key only if both shared points and all three public
      keys are the same. */
  lemma {:induction false} KeyBinds(g: Suite, secret: Bytes32, server: Bytes32, client: Bytes32, drawn: Bytes32,
      secret': Bytes32, server': Bytes32, client': Bytes32, drawn': Bytes32)
    requires var a := SecretInput(g.dh(drawn, client), g.dh(secret, client), server, client, g.public(drawn));
             var b := SecretInput(g.dh(drawn', client'), g.dh(secret', client'), server', client', g.public(drawn'));
             Apart(g, T_KEY, a, b) && Apart(g, M_EXPAND, g.hmac(T_KEY, a), g.hmac(T_KEY, b))
    ensures NtorServer(g, secret, server, client, drawn).key == NtorServer(g, secret', server', client', drawn').key ==>
              && g.dh(drawn, client) == g.dh(drawn', client') && g.dh(secret, client) == g.dh(secret', client')
              && server == server' && client == client' && g.public(drawn) == g.public(drawn')
  {
    hide ExpandKeySeed, SecretInput;
    var a := SecretInput(g.dh(drawn, client), g.dh(secret, client), server, client, g.public(drawn));
    var b := SecretInput(g.dh(drawn', client'), g.dh(secret', client'), server', client', g.public(drawn'));
    if NtorServer(g, secret, server, client, drawn).key == NtorServer(g, secret', server', client', drawn').key {
      SameSeed(g, a, b);
      SameSecretInput(g.dh(drawn, client), g.dh(secret, client), server, client, g.public(drawn),
        g.dh(drawn', client'), g.dh(secret', client'), server', client', g.public(drawn'));
    }
  }

  /** And a relay holds the key a client finished with only if it has the client's two points: with the
      ephemeral key the client was sent, and with the static key the client asked for. */
  lemma {:induction false} FinishBinds(g: Suite, secret: Bytes32, client: Bytes32, server: Bytes32, ephemeral: Bytes32,
      auth: Bytes32, otherSecret: Bytes32, other: Bytes32, otherClient: Bytes32, drawn: Bytes32)
    requires var a := SecretInput(g.dh(secret, ephemeral), g.dh(secret, server), server, client, ephemeral);
             var b := SecretInput(g.dh(drawn, otherClient), g.dh(otherSecret, otherClient), other, otherClient,
                 g.public(drawn));
             Apart(g, T_KEY, a, b) && Apart(g, M_EXPAND, g.hmac(T_KEY, a), g.hmac(T_KEY, b))
    ensures NtorFinish(g, secret, client, server, ephemeral, auth)
            == Ok(NtorServer(g, otherSecret, other, otherClient, drawn).key) ==>
              && g.dh(secret, ephemeral) == g.dh(drawn, otherClient)
              && g.dh(secret, server) == g.dh(otherSecret, otherClient)
              && server == other && client == otherClient && ephemeral == g.public(drawn)
  {
    hide ExpandKeySeed, SecretInput;
    var a := SecretInput(g.dh(secret, ephemeral), g.dh(secret, server), server, client, ephemeral);
    var b := SecretInput(g.dh(drawn, otherClient), g.dh(otherSecret, otherClient), other, otherClient, g.public(drawn));
    if NtorFinish(g, secret, client, server, ephemeral, auth)
       == Ok(NtorServer(g, otherSecret, other, otherClient, drawn).key) {
      SameSeed(g, a, b);
      SameSecretInput(g.dh(secret, ephemeral), g.dh(secret, server), server, client, ephemeral,
        g.dh(drawn, otherClient), g.dh(otherSecret, otherClient), other, otherClient, g.public(drawn));
    }
  }
}
