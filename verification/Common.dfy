/** Machine integers and the stock wrappers the other modules share. */
module Common {
  datatype Option<+T> = None | Some(value: T)

  datatype Result<+T, +E> = Ok(value: T) | Err(error: E)

  type byte = x: int | 0 <= x < 0x100
  type uint16 = x: int | 0 <= x < 0x1_0000
  type uint32 = x: int | 0 <= x < 0x1_0000_0000

  function Min(a: nat, b: nat): nat {
    if a < b then a else b
  }

  function Ascii(s: string): seq<byte> {
    seq(|s|, i requires 0 <= i < |s| => s[i] as int % 0x100)
  }

  function Reverse<T>(s: seq<T>): (r: seq<T>)
    ensures |r| == |s|
    ensures forall i :: 0 <= i < |s| ==> r[i] == s[|s| - 1 - i]
  {
    seq(|s|, i requires 0 <= i < |s| => s[|s| - 1 - i])
  }

  lemma {:induction false} Regroup<T>(a: seq<T>, b: seq<T>, c: seq<T>)
    ensures (a + b) + c == a + (b + c)
  {
  }

  /** Big-endian encodings, as `to_be_bytes` writes them. */
  function Be16(n: uint16): (r: seq<byte>)
    ensures |r| == 2 && FromBe16(r) == n
  {
    [n / 0x100, n % 0x100]
  }

  function FromBe16(b: seq<byte>): uint16
    requires |b| == 2
  {
    b[0] as int * 0x100 + b[1] as int
  }

  lemma {:induction false} Be16Inverse(b: seq<byte>)
    requires |b| == 2
    ensures Be16(FromBe16(b)) == b
  {
  }

  function Be32(n: uint32): (r: seq<byte>)
    ensures |r| == 4 && FromBe32(r) == n
  {
    Be16(n / 0x1_0000) + Be16(n % 0x1_0000)
  }

  function FromBe32(b: seq<byte>): uint32
    requires |b| == 4
  {
    FromBe16(b[..2]) as int * 0x1_0000 + FromBe16(b[2..]) as int
  }

  lemma {:induction false} Be32Inverse(b: seq<byte>)
    requires |b| == 4
    ensures Be32(FromBe32(b)) == b
  {
    Be16Inverse(b[..2]);
    Be16Inverse(b[2..]);
    assert b == b[..2] + b[2..];
  }
}
