/** The EXTEND payload: address, zero, client key, zero, TLS fingerprint to the end. */
module ExtendCodec {
  import opened Common
  import opened Handshake

  datatype Extend = Request(address: seq<byte>, key: Bytes32, fingerprint: seq<byte>)

  datatype ExtendError =
    | PayloadTooShort | NoAddressEnd | AddressNotUtf8 | KeyTooShort | NoFingerprintStart | FingerprintNotUtf8
    | BadAddress

  /** The two foreign parsers: UTF-8 and socket addresses. */
  datatype Text = Text(utf8: seq<byte> -> bool, socketAddress: seq<byte> -> bool)

  function Print(e: Extend): seq<byte> {
    e.address + [0] + e.key + [0] + e.fingerprint
  }

  function FirstZero(s: seq<byte>): (r: Option<nat>)
    ensures r.None? <==> 0 !in s
    ensures r.Some? ==> r.value < |s| && s[r.value] == 0 && 0 !in s[..r.value]
  {
    if s == [] then None
    else if s[0] == 0 then Some(0)
    else
      var r := FirstZero(s[1..]);
      if r.None? then None
      else
        assert s[..r.value + 1] == [s[0]] + s[1..][..r.value];
        Some(r.value + 1)
  }

  function Parse(t: Text, payload: seq<byte>): Result<Extend, ExtendError> {
    if |payload| < 33 then Err(PayloadTooShort) else
    var end := FirstZero(payload);
    if end.None? then Err(NoAddressEnd) else
    var address := payload[..end.value];
    if !t.utf8(address) then Err(AddressNotUtf8) else
    var keyStart := end.value + 1;
    var keyEnd := keyStart + 32;
    if keyEnd > |payload| then Err(KeyTooShort) else
    if keyEnd == |payload| || payload[keyEnd] != 0 then Err(NoFingerprintStart) else
    var fingerprint := payload[keyEnd + 1..];
    if !t.utf8(fingerprint) then Err(FingerprintNotUtf8) else
    if !t.socketAddress(address) then Err(BadAddress) else
    Ok(Request(address, payload[keyStart..keyEnd], fingerprint))
  }

  lemma {:induction false} FirstZeroAt(s: seq<byte>, k: nat)
    requires k < |s| && s[k] == 0 && 0 !in s[..k]
    ensures FirstZero(s) == Some(k)
  {
    if k > 0 {
      assert s[0] == s[..k][0];
      assert s[1..][..k - 1] == s[..k][1..];
      FirstZeroAt(s[1..], k - 1);
    }
  }

  /** Where the parts of a payload are. */
  lemma {:induction false} PrintLayout(e: Extend)
    ensures var p, n := Print(e), |e.address|;
            && |p| == n + 34 + |e.fingerprint|
            && p[..n] == e.address && p[n] == 0 && p[n + 1..n + 33] == e.key
            && p[n + 33] == 0 && p[n + 34..] == e.fingerprint
  {
  }

  /** A relay reads back exactly what the client printed, whatever zeros the key holds, if and only if
      the address has no zero byte and the texts are well formed. */
  lemma {:induction false} ParsePrint(t: Text, e: Extend)
    ensures Parse(t, Print(e)) == Ok(e) <==>
            0 !in e.address && t.utf8(e.address) && t.utf8(e.fingerprint) && t.socketAddress(e.address)
  {
    var p := Print(e);
    PrintLayout(e);
    if 0 !in e.address {
      FirstZeroAt(p, |e.address|);
    }
  }

  /** Whatever a relay accepts is exactly the print of what it read. */
  lemma {:induction false} PrintParse(t: Text, payload: seq<byte>)
    requires Parse(t, payload).Ok?
    ensures Print(Parse(t, payload).value) == payload && 0 !in Parse(t, payload).value.address
  {
    var k := FirstZero(payload).value;
    assert payload == payload[..k] + [payload[k]] + payload[k + 1..k + 33] + [payload[k + 33]] + payload[k + 34..];
  }

  /** The parser accepts exactly the prints of well-formed requests. */
  lemma {:induction false} ParsesIff(t: Text, payload: seq<byte>)
    ensures Parse(t, payload).Ok? <==>
            exists e :: Print(e) == payload && 0 !in e.address && t.utf8(e.address) && t.utf8(e.fingerprint)
                        && t.socketAddress(e.address)
  {
    if Parse(t, payload).Ok? {
      PrintParse(t, payload);
      ParsePrint(t, Parse(t, payload).value);
    }
    if e :| Print(e) == payload && 0 !in e.address && t.utf8(e.address) && t.utf8(e.fingerprint)
            && t.socketAddress(e.address)
    {
      ParsePrint(t, e);
    }
  }

  /** So a payload has at most one reading. */
  lemma {:induction false} PrintInjective(a: Extend, b: Extend)
    requires 0 !in a.address && 0 !in b.address && Print(a) == Print(b)
    ensures a == b
  {
    var t := Text(_ => true, _ => true);
    ParsePrint(t, a);
    ParsePrint(t, b);
  }
}
