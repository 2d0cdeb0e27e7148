/** The frame and string codec, as core/src/protocol.c writes and reads it and as
    tools/channelwire_client.py does. */
module Wire {
  import opened Bytes

  const HEADER_SIZE: nat := 5
  const MAX_PAYLOAD: nat := 4096
  const MAX_STRING: nat := 1024

  datatype Frame = Frame(kind: byte, payload: Bytes)

  // ------------------------------------------------------------------ frames

  /** One frame on the wire: type, big-endian length, payload. */
  function EncodeFrame(f: Frame): (r: Bytes)
    requires |f.payload| < 0x1_0000_0000
    ensures |r| == HEADER_SIZE + |f.payload|
  {
    [f.kind] + Be32(|f.payload|) + f.payload
  }

  predicate Encodable(fs: seq<Frame>) {
    forall i :: 0 <= i < |fs| ==> |fs[i].payload| < 0x1_0000_0000
  }

  predicate SmallFrames(fs: seq<Frame>) {
    forall i :: 0 <= i < |fs| ==> |fs[i].payload| <= MAX_PAYLOAD
  }

  function EncodeAll(fs: seq<Frame>): Bytes
    requires Encodable(fs)
  {
    if fs == [] then [] else EncodeFrame(fs[0]) + EncodeAll(fs[1..])
  }

  lemma EncodeAllPrepended(f: Frame, fs: seq<Frame>, tail: Bytes)
    requires Encodable(fs) && |f.payload| < 0x1_0000_0000
    ensures Encodable([f] + fs)
    ensures EncodeAll([f] + fs) + tail == EncodeFrame(f) + (EncodeAll(fs) + tail)
  {
    assert ([f] + fs)[1..] == fs;
    assert EncodeFrame(f) + EncodeAll(fs) + tail == EncodeFrame(f) + (EncodeAll(fs) + tail);
  }

  lemma {:induction false} EncodeAllConcat(fs: seq<Frame>, gs: seq<Frame>)
    requires Encodable(fs) && Encodable(gs)
    ensures Encodable(fs + gs)
    ensures EncodeAll(fs + gs) == EncodeAll(fs) + EncodeAll(gs)
  {
    if fs == [] {
      assert fs + gs == gs;
    } else {
      EncodeAllConcat(fs[1..], gs);
      assert fs + gs == [fs[0]] + (fs[1..] + gs);
      EncodeAllPrepended(fs[0], fs[1..] + gs, []);
      assert EncodeFrame(fs[0]) + EncodeAll(fs[1..]) + EncodeAll(gs)
          == EncodeFrame(fs[0]) + (EncodeAll(fs[1..]) + EncodeAll(gs));
    }
  }

  lemma EncodeAllSnoc(fs: seq<Frame>, f: Frame)
    requires Encodable(fs) && |f.payload| < 0x1_0000_0000
    ensures Encodable(fs + [f])
    ensures EncodeAll(fs + [f]) == EncodeAll(fs) + EncodeFrame(f)
  {
    EncodeAllConcat(fs, [f]);
    assert EncodeAll([f]) == EncodeFrame(f) + EncodeAll([]);
  }

  /** The payload length announced by a complete header. */
  function Announced(b: Bytes): (n: nat)
    requires |b| >= HEADER_SIZE
    ensures n < 0x1_0000_0000
  {
    Num32(b[1..])
  }

  /** The header written for a frame is read back, whatever follows it. */
  lemma HeaderRoundTrip(f: Frame, tail: Bytes)
    requires |f.payload| < 0x1_0000_0000
    ensures var b := EncodeFrame(f) + tail;
      && b[0] == f.kind
      && Announced(b) == |f.payload|
      && b[HEADER_SIZE..HEADER_SIZE + |f.payload|] == f.payload
      && b[HEADER_SIZE + |f.payload|..] == tail
  {
    var b := EncodeFrame(f) + tail;
    assert b[1..] == Be32(|f.payload|) + (f.payload + tail);
    Be32RoundTrip(|f.payload|, f.payload + tail);
  }

  // ------------------------------------------------- the server's greedy parse

  /** What a byte stream holds: its complete frames, and the bytes after them. */
  datatype Parsed = Parsed(frames: seq<Frame>, rest: Bytes)

  /** A header that announces more than a frame may carry. */
  predicate Malformed(b: Bytes) {
    |b| >= HEADER_SIZE && Announced(b) > MAX_PAYLOAD
  }

  predicate FrameReady(b: Bytes) {
    |b| >= HEADER_SIZE && Announced(b) <= MAX_PAYLOAD && |b| >= HEADER_SIZE + Announced(b)
  }

  function FirstFrame(b: Bytes): Frame
    requires FrameReady(b)
  {
    Frame(b[0], b[HEADER_SIZE..HEADER_SIZE + Announced(b)])
  }

  function AfterFirst(b: Bytes): (r: Bytes)
    requires FrameReady(b)
    ensures |r| + HEADER_SIZE <= |b|
  {
    b[HEADER_SIZE + Announced(b)..]
  }

  /** Take frames while a complete well-formed one is at the front. */
  function Parse(b: Bytes): Parsed
    decreases |b|
  {
    if !FrameReady(b) then Parsed([], b)
    else
      var t := Parse(AfterFirst(b));
      Parsed([FirstFrame(b)] + t.frames, t.rest)
  }

  function Prepend(fs: seq<Frame>, p: Parsed): Parsed {
    Parsed(fs + p.frames, p.rest)
  }

  /** A complete frame at the front stays the first frame when more bytes follow. */
  lemma FirstFrameOfExtension(a: Bytes, b: Bytes)
    requires FrameReady(a)
    ensures FrameReady(a + b)
    ensures FirstFrame(a + b) == FirstFrame(a)
    ensures AfterFirst(a + b) == AfterFirst(a) + b
  {
    assert (a + b)[1..][..4] == a[1..][..4];
  }

  lemma FirstFrameOfEncoding(f: Frame, tail: Bytes)
    requires |f.payload| <= MAX_PAYLOAD
    ensures var b := EncodeFrame(f) + tail;
      FrameReady(b) && FirstFrame(b) == f && AfterFirst(b) == tail
  {
    HeaderRoundTrip(f, tail);
  }

  lemma SplitFirst(b: Bytes)
    requires FrameReady(b)
    ensures b == EncodeFrame(FirstFrame(b)) + AfterFirst(b)
  {
    Num32RoundTrip(b[1..]);
    var n := HEADER_SIZE + Announced(b);
    assert b[1..][..4] == b[1..5];
    assert b == [b[0]] + b[1..5] + b[5..n] + b[n..];
  }

  /** Parsing may stop anywhere and go on when more bytes are there: the remainder of a
      prefix, followed by the later bytes, holds exactly the frames still missing. */
  lemma {:induction false} ParseResumes(a: Bytes, b: Bytes)
    ensures Parse(a + b) == Prepend(Parse(a).frames, Parse(Parse(a).rest + b))
    decreases |a|
  {
    if FrameReady(a) {
      FirstFrameOfExtension(a, b);
      ParseResumes(AfterFirst(a), b);
      PrependPrepend([FirstFrame(a)], Parse(AfterFirst(a)).frames, Parse(Parse(a).rest + b));
    } else {
      PrependNothing(Parse(a + b));
    }
  }

  lemma PrependPrepend(fs: seq<Frame>, gs: seq<Frame>, p: Parsed)
    ensures Prepend(fs + gs, p) == Prepend(fs, Prepend(gs, p))
  {
    assert fs + gs + p.frames == fs + (gs + p.frames);
  }

  lemma PrependNothing(p: Parsed)
    ensures Prepend([], p) == p
  {
    assert [] + p.frames == p.frames;
  }

  /** Nothing is ever taken from behind a malformed header. */
  lemma MalformedStaysMalformed(a: Bytes, b: Bytes)
    requires Malformed(a)
    ensures Malformed(a + b) && Parse(a + b) == Parsed([], a + b)
  {
    assert (a + b)[1..][..4] == a[1..][..4];
  }

  /** What is left over is either an incomplete frame or a malformed header. */
  lemma {:induction false} RestIsStuck(b: Bytes)
    ensures !FrameReady(Parse(b).rest)
    ensures !Malformed(Parse(b).rest) ==> |Parse(b).rest| < HEADER_SIZE + MAX_PAYLOAD
    decreases |b|
  {
    if FrameReady(b) {
      RestIsStuck(AfterFirst(b));
    }
  }

  /** Parsing splits the bytes: the frames, encoded again, and the rest are the input. */
  lemma {:induction false} ParseReencodes(b: Bytes)
    ensures SmallFrames(Parse(b).frames) && Encodable(Parse(b).frames)
    ensures EncodeAll(Parse(b).frames) + Parse(b).rest == b
    decreases |b|
  {
    if FrameReady(b) {
      var f, t := FirstFrame(b), AfterFirst(b);
      ParseReencodes(t);
      SplitFirst(b);
      EncodeAllPrepended(f, Parse(t).frames, Parse(t).rest);
    }
  }

  /** The parse of an encoding is the frames themselves. */
  lemma {:induction false} ParseOfEncoding(fs: seq<Frame>, tail: Bytes)
    requires Encodable(fs) && SmallFrames(fs)
    ensures Parse(EncodeAll(fs) + tail) == Prepend(fs, Parse(tail))
  {
    if fs == [] {
      assert EncodeAll(fs) + tail == tail;
    } else {
      assert fs == [fs[0]] + fs[1..];
      EncodeAllPrepended(fs[0], fs[1..], tail);
      FirstFrameOfEncoding(fs[0], EncodeAll(fs[1..]) + tail);
      ParseOfEncoding(fs[1..], tail);
      PrependPrepend([fs[0]], fs[1..], Parse(tail));
    }
  }

  /** Whoever has received only a prefix of an encoded frame sequence holds a prefix of
      the frames and an incomplete next one: never a wrong frame, never a malformed one. */
  lemma PrefixParsesToPrefix(fs: seq<Frame>, p: Bytes)
    requires Encodable(fs) && SmallFrames(fs)
    requires p <= EncodeAll(fs)
    ensures Parse(p).frames <= fs
    ensures !Malformed(Parse(p).rest)
    ensures p == EncodeAll(fs) ==> Parse(p) == Parsed(fs, [])
  {
    var later := EncodeAll(fs)[|p|..];
    assert EncodeAll(fs) + [] == EncodeAll(fs) == p + later;
    ParseOfEncoding(fs, []);
    assert Parse(p + later) == Parsed(fs, []);
    ParseResumes(p, later);
    if Malformed(Parse(p).rest) {
      MalformedStaysMalformed(Parse(p).rest, later);
      assert false;
    }
    if p == EncodeAll(fs) {
      assert later == [];
      assert p + later == p;
    }
  }

  // ------------------------------------------------------------------ strings

  predicate Packable(vs: seq<Bytes>) {
    forall i :: 0 <= i < |vs| ==> |vs[i]| < 0x1_0000
  }

  /** Length-prefixed strings, one after the other. */
  function PackStrings(vs: seq<Bytes>): Bytes
    requires Packable(vs)
  {
    if vs == [] then [] else Be16(|vs[0]|) + vs[0] + PackStrings(vs[1..])
  }

  /** A complete length-prefixed string is at the front. */
  predicate OneString(q: Bytes) {
    |q| >= 2 && |q| >= 2 + Num16(q)
  }

  /** The inverse reading of a whole payload; None where decode_strings raises. */
  function UnpackStrings(p: Bytes): Option<seq<Bytes>>
    decreases |p|
  {
    if p == [] then Some([])
    else if !OneString(p) then None
    else
      var n := 2 + Num16(p);
      match UnpackStrings(p[n..])
      case None => None
      case Some(vs) => Some([p[2..n]] + vs)
  }

  lemma {:induction false} PackStringsConcat(vs: seq<Bytes>, ws: seq<Bytes>)
    requires Packable(vs) && Packable(ws)
    ensures Packable(vs + ws)
    ensures PackStrings(vs + ws) == PackStrings(vs) + PackStrings(ws)
  {
    if vs == [] {
      assert vs + ws == ws;
    } else {
      assert (vs + ws)[1..] == vs[1..] + ws;
      PackStringsConcat(vs[1..], ws);
      ConcatAssociates(Be16(|vs[0]|) + vs[0], PackStrings(vs[1..]), PackStrings(ws));
    }
  }

  lemma PackStringsSnoc(vs: seq<Bytes>, v: Bytes)
    requires Packable(vs) && |v| < 0x1_0000
    ensures Packable(vs + [v])
    ensures PackStrings(vs + [v]) == PackStrings(vs) + Be16(|v|) + v
  {
    PackStringsConcat(vs, [v]);
    assert PackStrings([v]) == Be16(|v|) + v + PackStrings([]);
  }

  /** decode_strings inverts string_payload. */
  lemma {:induction false} UnpackInvertsPack(vs: seq<Bytes>)
    requires Packable(vs)
    ensures UnpackStrings(PackStrings(vs)) == Some(vs)
  {
    if vs != [] {
      var tail := PackStrings(vs[1..]);
      var p := PackStrings(vs);
      assert p == Be16(|vs[0]|) + (vs[0] + tail);
      Be16RoundTrip(|vs[0]|, vs[0] + tail);
      var n := 2 + |vs[0]|;
      assert p[2..n] == vs[0];
      assert p[n..] == tail;
      UnpackInvertsPack(vs[1..]);
      assert vs == [vs[0]] + vs[1..];
    }
  }

  lemma PackPrepended(v: Bytes, vs: seq<Bytes>)
    requires Packable(vs) && |v| < 0x1_0000
    ensures Packable([v] + vs)
    ensures PackStrings([v] + vs) == Be16(|v|) + v + PackStrings(vs)
  {
    assert ([v] + vs)[1..] == vs;
  }

  lemma SplitOne(p: Bytes)
    requires OneString(p)
    ensures p == Be16(Num16(p)) + p[2..2 + Num16(p)] + p[2 + Num16(p)..]
  {
    Num16RoundTrip(p);
    assert p == p[..2] + p[2..2 + Num16(p)] + p[2 + Num16(p)..];
  }

  /** Any payload decode_strings accepts is the encoding of what it returned. */
  lemma {:induction false} PackInvertsUnpack(p: Bytes)
    requires UnpackStrings(p).Some?
    ensures Packable(UnpackStrings(p).value)
    ensures PackStrings(UnpackStrings(p).value) == p
    decreases |p|
  {
    if p != [] {
      var n := 2 + Num16(p);
      PackInvertsUnpack(p[n..]);
      PackPrepended(p[2..n], UnpackStrings(p[n..]).value);
      SplitOne(p);
    }
  }

  // ------------------------------------------------ cw_read_string and callers

  /** One cw_read_string: the value and the new offset; on failure the offset may
      already stand behind the length. */
  datatype ReadResult = ReadOk(value: Bytes, next: nat) | ReadFail(next: nat)

  function ReadStringAt(p: Bytes, offset: nat, outCap: nat): (r: ReadResult)
    requires offset <= |p|
    ensures r.next <= |p|
    ensures r.ReadOk? ==> |r.value| < outCap && |r.value| <= MAX_STRING && r.next == offset + 2 + |r.value|
  {
    if outCap == 0 then ReadFail(offset)
    else if offset + 2 > |p| then ReadFail(offset)
    else
      var n := Num16(p[offset..]);
      if n > MAX_STRING || offset + 2 + n > |p| then ReadFail(offset + 2)
      else if n >= outCap then ReadFail(offset + 2)
      else ReadOk(p[offset + 2..offset + 2 + n], offset + 2 + n)
  }

  /** Reading one string after the other, each into a buffer of the given capacity, and
      nothing may be left: what every command handler does with its payload. */
  function ReadExactly(p: Bytes, offset: nat, caps: seq<nat>): Option<seq<Bytes>>
    requires offset <= |p|
    decreases |caps|
  {
    if caps == [] then (if offset == |p| then Some([]) else None)
    else
      match ReadStringAt(p, offset, caps[0])
      case ReadFail(_) => None
      case ReadOk(v, next) =>
        match ReadExactly(p, next, caps[1..])
        case None => None
        case Some(vs) => Some([v] + vs)
  }

  lemma ReadExactlyOne(p: Bytes, offset: nat, cap: nat)
    requires offset <= |p|
    ensures var r := ReadStringAt(p, offset, cap);
      ReadExactly(p, offset, [cap]) == if r.ReadOk? && r.next == |p| then Some([r.value]) else None
  {
    assert [cap][1..] == [];
    var r := ReadStringAt(p, offset, cap);
    if r.ReadOk? {
      var none: seq<Bytes> := [];
      assert [r.value] + none == [r.value];
    }
  }

  lemma ReadExactlyTwo(p: Bytes, cap: nat, cap': nat)
    ensures var r := ReadStringAt(p, 0, cap);
      var r' := ReadStringAt(p, r.next, cap');
      ReadExactly(p, 0, [cap, cap']) ==
      if r.ReadOk? && r'.ReadOk? && r'.next == |p| then Some([r.value, r'.value]) else None
  {
    assert [cap, cap'][1..] == [cap'];
    var r := ReadStringAt(p, 0, cap);
    var r' := ReadStringAt(p, r.next, cap');
    ReadExactlyOne(p, r.next, cap');
    if r.ReadOk? && r'.ReadOk? {
      assert [r.value] + [r'.value] == [r.value, r'.value];
    }
  }

  predicate FitCaps(vs: seq<Bytes>, caps: seq<nat>) {
    && |vs| == |caps|
    && forall i :: 0 <= i < |vs| ==> |vs[i]| <= MAX_STRING && |vs[i]| < caps[i]
  }

  /** The C reader and the Python reader agree: a handler accepts a payload exactly when
      decode_strings does, with as many strings as the handler wants, each short enough
      for its buffer; and then both return the same strings. */
  lemma {:induction false} ReadersAgree(p: Bytes, offset: nat, caps: seq<nat>)
    requires offset <= |p|
    ensures var u := UnpackStrings(p[offset..]);
      ReadExactly(p, offset, caps) == if u.Some? && FitCaps(u.value, caps) then u else None
    decreases |caps|
  {
    var q := p[offset..];
    if caps != [] && OneString(q) {
      var n := 2 + Num16(q);
      ReadStringSees(p, offset, caps[0]);
      ReadersAgree(p, offset + n, caps[1..]);
      var rest := UnpackStrings(q[n..]);
      if rest.Some? {
        FitCapsCons(q[2..n], rest.value, caps);
      }
    } else if caps != [] {
      ReadStringSees(p, offset, caps[0]);
      assert q == [] ==> !FitCaps([], caps);
    }
  }

  lemma ReadStringSees(p: Bytes, offset: nat, outCap: nat)
    requires offset <= |p|
    ensures var q, r := p[offset..], ReadStringAt(p, offset, outCap);
      && (r.ReadOk? <==> OneString(q) && Num16(q) <= MAX_STRING && Num16(q) < outCap)
      && (OneString(q) ==> p[offset + 2 + Num16(q)..] == q[2 + Num16(q)..])
      && (r.ReadOk? ==> r == ReadOk(q[2..2 + Num16(q)], offset + 2 + Num16(q)))
  {
    var q := p[offset..];
    if OneString(q) {
      assert p[offset + 2 + Num16(q)..] == q[2 + Num16(q)..];
      assert p[offset + 2..offset + 2 + Num16(q)] == q[2..2 + Num16(q)];
    }
  }

  lemma FitCapsCons(v: Bytes, vs: seq<Bytes>, caps: seq<nat>)
    requires caps != []
    ensures FitCaps([v] + vs, caps) <==> |v| <= MAX_STRING && |v| < caps[0] && FitCaps(vs, caps[1..])
  {
    var ws := [v] + vs;
    if FitCaps(ws, caps) {
      forall i | 0 <= i < |vs|
        ensures |vs[i]| <= MAX_STRING && |vs[i]| < caps[1..][i]
      {
        assert ws[i + 1] == vs[i];
      }
    }
  }

  /** The strings of a list, written by the client library or by the server, are read back
      by the server's readers whenever each fits the buffer meant for it. */
  lemma WrittenStringsAreReadBack(vs: seq<Bytes>, caps: seq<nat>)
    requires FitCaps(vs, caps)
    ensures Packable(vs)
    ensures ReadExactly(PackStrings(vs), 0, caps) == Some(vs)
  {
    var p := PackStrings(vs);
    assert p[0..] == p;
    UnpackInvertsPack(vs);
    ReadersAgree(p, 0, caps);
  }

  // -------------------------------------------------------------------- names

  predicate NameByte(c: byte) {
    || 'a' as int <= c as int <= 'z' as int
    || 'A' as int <= c as int <= 'Z' as int
    || '0' as int <= c as int <= '9' as int
    || c as int in {'_' as int, '-' as int, '.' as int}
  }

  predicate NameOk(v: Bytes, minLen: nat, maxLen: nat) {
    && minLen <= |v| <= maxLen
    && forall i :: 0 <= i < |v| ==> NameByte(v[i])
  }
}
