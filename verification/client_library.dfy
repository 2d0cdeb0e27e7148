/** tools/channelwire_client.py: the packing and unpacking loops, and reading frames from a
    socket that delivers them in arbitrary pieces. */
module ClientLibrary {
  import opened Bytes
  import opened Wire

  /** string_payload; None where it raises. */
  method StringPayload(values: seq<Bytes>) returns (r: Option<Bytes>)
    ensures r == if Packable(values) then Some(PackStrings(values)) else None
  {
    var out: Bytes := [];
    for i := 0 to |values|
      invariant Packable(values[..i]) && out == PackStrings(values[..i])
    {
      if |values[i]| > 65535 {
        return None;
      }
      assert values[..i + 1] == values[..i] + [values[i]];
      PackStringsSnoc(values[..i], values[i]);
      out := out + Be16(|values[i]|);
      out := out + values[i];
    }
    assert values[..|values|] == values;
    return Some(out);
  }

  /** decode_strings; None where it raises. */
  method DecodeStrings(payload: Bytes) returns (r: Option<seq<Bytes>>)
    ensures r == UnpackStrings(payload)
  {
    var values: seq<Bytes> := [];
    var offset := 0;
    assert payload[0..] == payload;
    assert UnpackStrings(payload).Some? ==> values + UnpackStrings(payload).value == UnpackStrings(payload).value;
    while offset < |payload|
      invariant offset <= |payload|
      invariant UnpackStrings(payload) ==
        match UnpackStrings(payload[offset..]) case None => None case Some(vs) => Some(values + vs)
    {
      ghost var q := payload[offset..];
      if offset + 2 > |payload| {
        return None;
      }
      var length := Num16(payload[offset..offset + 2]);
      assert length == Num16(q);
      offset := offset + 2;
      if offset + length > |payload| {
        return None;
      }
      assert payload[offset..offset + length] == q[2..2 + length] && payload[offset + length..] == q[2 + length..];
      ghost var before := values;
      values := values + [payload[offset..offset + length]];
      offset := offset + length;
      ghost var later := UnpackStrings(payload[offset..]);
      if later.Some? {
        ConcatAssociates(before, [q[2..2 + length]], later.value);
      }
    }
    assert payload[offset..] == [];
    assert values + [] == values;
    return Some(values);
  }

  /** The receiving end of a connection: the bytes still to come before it is closed. */
  class Socket {
    var incoming: Bytes

    constructor (incoming: Bytes)
      ensures this.incoming == incoming
    {
      this.incoming := incoming;
    }

    /** recv: at least one byte and at most what was asked for, or none at the end. */
    method Recv(limit: nat) returns (chunk: Bytes)
      requires limit > 0
      modifies this
      ensures chunk + incoming == old(incoming)
      ensures |chunk| <= limit
      ensures chunk == [] <==> old(incoming) == []
    {
      if incoming == [] {
        return [];
      }
      var n :| 1 <= n <= limit && n <= |incoming|;
      chunk, incoming := incoming[..n], incoming[n..];
    }

    /** recv_exact; None where it raises. */
    method RecvExact(length: nat) returns (r: Option<Bytes>)
      modifies this
      ensures if |old(incoming)| >= length
              then r == Some(old(incoming)[..length]) && incoming == old(incoming)[length..]
              else r == None && incoming == []
    {
      var chunks: Bytes := [];
      while |chunks| < length
        invariant |chunks| <= length && chunks + incoming == old(incoming)
        decreases length - |chunks|
      {
        var chunk := Recv(length - |chunks|);
        if chunk == [] {
          return None;
        }
        chunks := chunks + chunk;
      }
      return Some(chunks);
    }

    /** read_frame; None where it raises. */
    method ReadFrame() returns (r: Option<Frame>)
      modifies this
      ensures match TakeFrame(old(incoming))
        case None => r == None
        case Some(f) => r == Some(f) && incoming == old(incoming)[HEADER_SIZE + |f.payload|..]
    {
      ghost var s := incoming;
      var header := RecvExact(HEADER_SIZE);
      if header.None? {
        return None;
      }
      HeaderOf(s);
      var length := Num32(header.value[1..]);
      var payload := RecvExact(length);
      if payload.None? {
        return None;
      }
      return Some(Frame(header.value[0], payload.value));
    }

    /** Reading frames until the connection ends. */
    method ReadToEnd() returns (frames: seq<Frame>)
      modifies this
      ensures frames == AllFrames(old(incoming))
    {
      frames := [];
      var done := false;
      while !done
        invariant AllFrames(old(incoming)) == if done then frames else frames + AllFrames(incoming)
        decreases !done, |incoming|
      {
        ghost var s, before := incoming, frames;
        var f := ReadFrame();
        OneMoreFrame(s, before);
        if f.None? {
          done := true;
        } else {
          frames := frames + [f.value];
        }
      }
    }
  }

  lemma HeaderOf(s: Bytes)
    requires |s| >= HEADER_SIZE
    ensures Num32(s[..HEADER_SIZE][1..]) == Announced(s)
    ensures s[..HEADER_SIZE][0] == s[0]
    ensures var n := Announced(s);
      n <= |s[HEADER_SIZE..]| ==>
        s[HEADER_SIZE..][..n] == s[HEADER_SIZE..HEADER_SIZE + n] && s[HEADER_SIZE..][n..] == s[HEADER_SIZE + n..]
  {
    var h := s[..HEADER_SIZE][1..];
    assert forall k :: 0 <= k < 4 ==> h[k] == s[1..][k];
  }

  lemma OneMoreFrame(s: Bytes, before: seq<Frame>)
    ensures match TakeFrame(s)
      case None => before + AllFrames(s) == before
      case Some(f) => before + AllFrames(s) == before + [f] + AllFrames(s[HEADER_SIZE + |f.payload|..])
  {
  }

  /** The frame at the front of a stream, of whatever length; None if it is incomplete. */
  function TakeFrame(s: Bytes): Option<Frame> {
    if |s| < HEADER_SIZE || |s| < HEADER_SIZE + Announced(s) then None
    else Some(Frame(s[0], s[HEADER_SIZE..HEADER_SIZE + Announced(s)]))
  }

  function AllFrames(s: Bytes): seq<Frame>
    decreases |s|
  {
    match TakeFrame(s)
    case None => []
    case Some(f) => [f] + AllFrames(s[HEADER_SIZE + |f.payload|..])
  }

  /** The client library has no limit on the payload; on a stream without a header that
      the server would call malformed, both parse the same frames. */
  lemma {:induction false} SameParse(s: Bytes)
    requires !Malformed(Parse(s).rest)
    ensures AllFrames(s) == Parse(s).frames
    decreases |s|
  {
    if FrameReady(s) {
      SameParse(AfterFirst(s));
    }
  }

  /** Whatever prefix of a server's output arrives, and in whatever pieces, the library
      reads a prefix of the frames sent, and all of them if everything arrives. */
  lemma PeerReadsTheFrames(fs: seq<Frame>, p: Bytes)
    requires Encodable(fs) && SmallFrames(fs) && p <= EncodeAll(fs)
    ensures AllFrames(p) <= fs
    ensures p == EncodeAll(fs) ==> AllFrames(p) == fs
  {
    PrefixParsesToPrefix(fs, p);
    SameParse(p);
  }
}
