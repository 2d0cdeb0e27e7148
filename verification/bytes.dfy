/** Bytes, C strings and network byte order. */
module Bytes {

  newtype byte = b: int | 0 <= b < 256

  type Bytes = seq<byte>

  datatype Option<+T> = None | Some(value: T)

  lemma ConcatAssociates<T>(a: seq<T>, b: seq<T>, c: seq<T>)
    ensures a + (b + c) == a + b + c
  {
  }

  /** The bytes of an ASCII literal. */
  function Ascii(s: string): (r: Bytes)
    ensures |r| == |s|
  {
    seq(|s|, i requires 0 <= i < |s| => (s[i] as int % 256) as byte)
  }

  /** What strlen and strcmp see of a buffer: everything before the first NUL. */
  function CStr(b: Bytes): (r: Bytes)
    ensures r <= b
    ensures NulFree(r)
    ensures |r| < |b| ==> b[|r|] == 0
  {
    if b == [] || b[0] == 0 then [] else [b[0]] + CStr(b[1..])
  }

  predicate NulFree(b: Bytes) {
    forall i :: 0 <= i < |b| ==> b[i] != 0
  }

  /** A buffer without NUL is seen whole. */
  lemma CStrOfNulFree(b: Bytes)
    requires NulFree(b)
    ensures CStr(b) == b
  {
    if |CStr(b)| < |b| {
      assert false;
    }
  }

  /** htons: two bytes, most significant first. */
  function Be16(n: nat): (r: Bytes)
    requires n < 0x1_0000
    ensures |r| == 2
  {
    [(n / 256) as byte, (n % 256) as byte]
  }

  /** ntohs of the two bytes at the front. */
  function Num16(b: Bytes): (n: nat)
    requires |b| >= 2
    ensures n < 0x1_0000
  {
    b[0] as int * 256 + b[1] as int
  }

  /** htonl: four bytes, most significant first. */
  function Be32(n: nat): (r: Bytes)
    requires n < 0x1_0000_0000
    ensures |r| == 4
  {
    Be16(n / 0x1_0000) + Be16(n % 0x1_0000)
  }

  /** ntohl of the four bytes at the front. */
  function Num32(b: Bytes): (n: nat)
    requires |b| >= 4
    ensures n < 0x1_0000_0000
  {
    Num16(b) * 0x1_0000 + Num16(b[2..])
  }

  lemma Be16RoundTrip(n: nat, tail: Bytes)
    requires n < 0x1_0000
    ensures Num16(Be16(n) + tail) == n
  {
  }

  lemma Be32RoundTrip(n: nat, tail: Bytes)
    requires n < 0x1_0000_0000
    ensures Num32(Be32(n) + tail) == n
  {
    var b := Be32(n) + tail;
    assert b == Be16(n / 0x1_0000) + (Be16(n % 0x1_0000) + tail);
    Be16RoundTrip(n / 0x1_0000, Be16(n % 0x1_0000) + tail);
    assert b[2..] == Be16(n % 0x1_0000) + tail;
    Be16RoundTrip(n % 0x1_0000, tail);
  }

  /** The byte orders are bijections: the number read determines the bytes. */
  lemma Num16RoundTrip(b: Bytes)
    requires |b| >= 2
    ensures Be16(Num16(b)) == b[..2]
  {
  }

  lemma Num32RoundTrip(b: Bytes)
    requires |b| >= 4
    ensures Be32(Num32(b)) == b[..4]
  {
    Num16RoundTrip(b);
    Num16RoundTrip(b[2..]);
    assert b[..4] == b[..2] + b[2..][..2];
  }
}
