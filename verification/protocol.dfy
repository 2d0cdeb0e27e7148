/** core/src/protocol.c on byte buffers. */
module Protocol {
  import opened Bytes
  import opened Wire
  import opened Core

  /** cw_parse_header. */
  method ParseHeader(buf: array<byte>, len: nat) returns (ok: bool, kind: byte, size: nat)
    requires len <= buf.Length
    ensures ok <==> len >= HEADER_SIZE && !Malformed(buf[..len])
    ensures ok ==> kind == buf[0] && size == Announced(buf[..len])
  {
    if len < HEADER_SIZE {
      return false, 0, 0;
    }
    kind := buf[0];
    var high := buf[1] as int * 256 + buf[2] as int;
    var low := buf[3] as int * 256 + buf[4] as int;
    size := high * 0x1_0000 + low;
    assert buf[..len][1..][2..] == buf[3..len];
    ok := size <= MAX_PAYLOAD;
  }

  /** cw_write_header. */
  method WriteHeader(buf: array<byte>, kind: byte, size: nat) returns (written: nat)
    requires buf.Length >= HEADER_SIZE && size < 0x1_0000_0000
    modifies buf
    ensures written == HEADER_SIZE
    ensures buf[..HEADER_SIZE] == [kind] + Be32(size)
    ensures buf[HEADER_SIZE..] == old(buf[HEADER_SIZE..])
  {
    var net := Be32(size);
    buf[0] := kind;
    forall k | 0 <= k < 4 {
      buf[1 + k] := net[k];
    }
    written := HEADER_SIZE;
  }

  lemma SliceOfSlice<T>(s: seq<T>, base: nat, len: nat, from: nat, n: nat)
    requires base + len <= |s| && from + n <= len
    ensures s[base..base + len][from..from + n] == s[base + from..base + from + n]
  {
    var part := s[base..base + len];
    assert forall k :: from <= k < from + n ==> part[k] == s[base + k];
  }

  /** cw_read_string on the payload at buf[base..base + len]. */
  method ReadString(buf: array<byte>, base: nat, len: nat, offset: nat, outCap: nat)
    returns (ok: bool, next: nat, out: Bytes)
    requires base + len <= buf.Length && offset <= len
    ensures next <= len
    ensures ReadStringAt(buf[base..base + len], offset, outCap) == if ok then ReadOk(out, next) else ReadFail(next)
  {
    out := [];
    next := offset;
    if outCap == 0 {
      return false, next, out;
    }
    if offset + 2 > len {
      return false, next, out;
    }
    ghost var p := buf[..][base..base + len];
    assert p == buf[base..base + len];
    var n := buf[base + offset] as int * 256 + buf[base + offset + 1] as int;
    assert n == Num16(p[offset..]);
    next := offset + 2;
    if n > MAX_STRING || next + n > len {
      return false, next, out;
    }
    if n >= outCap {
      return false, next, out;
    }
    out := buf[base + next..base + next + n];
    SliceOfSlice(buf[..], base, len, next, n);
    assert out == buf[..][base + next..base + next + n];
    next := next + n;
    ok := true;
  }

  /** cw_write_string. */
  method WriteString(buf: array<byte>, offset: nat, value: Bytes) returns (ok: bool, next: nat)
    requires offset <= buf.Length
    modifies buf
    ensures ok <==> |value| <= MAX_STRING && offset + 2 + |value| <= buf.Length
    ensures next == if ok then offset + 2 + |value| else offset
    ensures ok ==> buf[..next] == old(buf[..offset]) + Be16(|value|) + value
    ensures buf[next..] == old(buf[next..])
    ensures !ok ==> buf[..] == old(buf[..])
  {
    next := offset;
    var len := |value|;
    if len > 65535 || len > MAX_STRING {
      return false, next;
    }
    if offset + 2 + len > buf.Length {
      return false, next;
    }
    var net := Be16(len);
    buf[offset], buf[offset + 1] := net[0], net[1];
    next := next + 2;
    forall k | 0 <= k < len {
      buf[offset + 2 + k] := value[k];
    }
    next := next + len;
    ok := true;
  }

  /** The loop of cw_write_string calls in enqueue_strings and broadcast_chat. */
  method WriteStrings(buf: array<byte>, values: seq<Bytes>) returns (ok: bool, offset: nat)
    modifies buf
    ensures offset <= buf.Length
    ensures ok <==> Written(values, buf.Length).Some?
    ensures ok ==> buf[..offset] == Written(values, buf.Length).value
  {
    offset := 0;
    for i := 0 to |values|
      invariant offset <= buf.Length
      invariant forall k :: 0 <= k < i ==> |values[k]| <= MAX_STRING
      invariant Packable(values[..i]) && buf[..offset] == PackStrings(values[..i])
    {
      assert values[..i + 1] == values[..i] + [values[i]];
      assert values == values[..i + 1] + values[i + 1..];
      ok, offset := WriteString(buf, offset, values[i]);
      if !ok {
        if |values[i]| <= MAX_STRING && forall k :: 0 <= k < |values| ==> |values[k]| <= MAX_STRING {
          PackStringsSnoc(values[..i], values[i]);
          PackStringsConcat(values[..i + 1], values[i + 1..]);
        }
        return;
      }
      PackStringsSnoc(values[..i], values[i]);
    }
    assert values[..|values|] == values;
    ok := true;
  }

  /** cw_valid_name. */
  method ValidName(value: Bytes, minLen: nat, maxLen: nat) returns (ok: bool)
    ensures ok <==> NameOk(value, minLen, maxLen)
  {
    var len := |value|;
    if len < minLen || len > maxLen {
      return false;
    }
    for i := 0 to len
      invariant forall k :: 0 <= k < i ==> NameByte(value[k])
    {
      if !NameByte(value[i]) {
        return false;
      }
    }
    return true;
  }

  /** read_one_string_payload. */
  method ReadOneString(buf: array<byte>, base: nat, len: nat, outCap: nat) returns (ok: bool, out: Bytes)
    requires base + len <= buf.Length
    ensures ReadExactly(buf[base..base + len], 0, [outCap]) == if ok then Some([out]) else None
  {
    var next;
    ok, next, out := ReadString(buf, base, len, 0, outCap);
    ok := ok && next == len;
    ReadExactlyOne(buf[base..base + len], 0, outCap);
  }
}
