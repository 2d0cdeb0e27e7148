/** What a command must achieve. The laws before this file bound what commands may do; here
    each command is given its whole effect in terms of what the clients are, not of the
    functions that compute it: who is sent which frame, who is dropped for want of room or
    memory, and that nobody else is touched. */
module CoreOutcomes {
  import opened Bytes
  import opened Wire
  import opened Core
  import opened CoreInvariant
  import opened CoreDelivery
  import opened CoreSessions
  import CoreLaws

  // ---------------------------------------------------------------- one frame

  /** The same connection with one more frame queued. */
  predicate Queues(c: Conn, d: Conn, f: Frame) {
    && |f.payload| <= 4096
    && d.queue == c.queue + [Queued(EncodeFrame(f), 0)]
    && d.history == c.history.(accepted := c.history.accepted + [f])
    && d.fd == c.fd && d.inbuf == c.inbuf && SameSession(c, d)
  }

  lemma PushQueues(c: Conn, f: Frame)
    requires |f.payload| <= MAX_PAYLOAD
    ensures Queues(c, Push(c, f), f)
  {
  }

  // ---------------------------------------------------------------- one frame to many

  /** How many allocations the first n targets ask for: one each, if there is room. */
  function Asked(s: State, targets: set<nat>, n: nat, f: Frame): (r: nat)
    ensures r <= n
  {
    if n == 0 then 0
    else
      Asked(s, targets, n - 1, f)
      + if n - 1 in targets && n - 1 < |s.clients| && Room(s.maxQueue, s.clients[n - 1].queue, f) then 1 else 0
  }

  /** Slot j has room for the frame, and memory is there when its turn comes. */
  predicate Served(s: State, targets: set<nat>, j: nat, f: Frame) {
    && j < |s.clients| && Room(s.maxQueue, s.clients[j].queue, f)
    && s.calloc(s.allocations + Asked(s, targets, j, f))
  }

  /** The connections that are dropped among the first n slots, in slot order. */
  function Dropped(s: State, targets: set<nat>, n: nat, f: Frame): seq<Closed> {
    if n == 0 then []
    else
      Dropped(s, targets, n - 1, f)
      + if n - 1 in targets && n - 1 < |s.clients| && !Served(s, targets, n - 1, f)
        then [Closed(s.clients[n - 1].history, Overflow)] else []
  }

  /** A target of the frame, served or dropped. */
  predicate Got(c: Conn, d: Conn, served: bool, f: Frame) {
    if served then Queues(c, d, f) else d == Blank()
  }

  /** Among the first n slots exactly the targets are sent the frame or dropped. */
  ghost predicate Fanned(s: State, r: State, targets: set<nat>, n: nat, f: Frame) {
    && |r.clients| == |s.clients|
    && (forall j :: 0 <= j < |s.clients| ==>
          if j < n && j in targets then Got(s.clients[j], r.clients[j], Served(s, targets, j, f), f)
          else r.clients[j] == s.clients[j])
    && r.allocations == s.allocations + Asked(s, targets, n, f)
    && r.closed == s.closed + Dropped(s, targets, n, f)
    && r.channels == s.channels && r.maxQueue == s.maxQueue && r.calloc == s.calloc
  }

  function Targets(s: State, channel: int, except: int): set<nat> {
    set j: nat | j < |s.clients| && j != except && IsMember(s.clients[j], channel)
  }

  lemma {:induction false} FanoutExactly(s: State, n: nat, channel: int, except: int, f: Frame)
    requires Good(s) && n <= |s.clients|
    ensures Fanned(s, Fanout(s, n, channel, except, f), Targets(s, channel, except), n, f)
  {
    if n > 0 {
      var t := Fanout(s, n - 1, channel, except, f);
      FanoutExactly(s, n - 1, channel, except, f);
      FanoutKeeps(s, n - 1, channel, except, f);
      RoundExactly(s, t, n - 1, channel, except, f);
    }
  }

  /** What delivering a frame to one client does. */
  ghost predicate Delivers(s: State, j: nat, f: Frame, r: State)
    requires j < |s.clients|
  {
    && j < |r.clients| && r.clients == s.clients[j := r.clients[j]]
    && Got(s.clients[j], r.clients[j], Takes(s, j, f), f)
    && r.allocations == s.allocations + (if Room(s.maxQueue, s.clients[j].queue, f) then 1 else 0)
    && r.closed == s.closed + (if Takes(s, j, f) then [] else [Closed(s.clients[j].history, Overflow)])
    && r.channels == s.channels && r.maxQueue == s.maxQueue && r.calloc == s.calloc
  }

  lemma DeliverDelivers(s: State, j: nat, f: Frame)
    requires Good(s) && Live(s, j)
    ensures Delivers(s, j, f, Deliver(s, j, f))
  {
    DeliverExactly(s, j, f);
    if |f.payload| <= MAX_PAYLOAD { PushQueues(s.clients[j], f); }
  }

  lemma RoundExactly(s: State, t: State, j: nat, channel: int, except: int, f: Frame)
    requires Good(t) && j < |s.clients| && Fanned(s, t, Targets(s, channel, except), j, f)
    ensures Fanned(s, Round(t, j, channel, except, f), Targets(s, channel, except), j + 1, f)
  {
    assert t.clients[j] == s.clients[j];
    if j in Targets(s, channel, except) {
      DeliverDelivers(t, j, f);
      OneMoreFanned(s, t, Round(t, j, channel, except, f), Targets(s, channel, except), j, f);
    }
  }

  lemma OneMoreFanned(s: State, t: State, r: State, targets: set<nat>, j: nat, f: Frame)
    requires j < |s.clients| && j in targets && Fanned(s, t, targets, j, f)
    requires t.clients[j] == s.clients[j] && Delivers(t, j, f, r)
    ensures Fanned(s, r, targets, j + 1, f)
  {
    NextTakes(s, t, targets, j, f);
    forall k | 0 <= k < |s.clients|
      ensures if k < j + 1 && k in targets then Got(s.clients[k], r.clients[k], Served(s, targets, k, f), f)
              else r.clients[k] == s.clients[k]
    {
      assert r.clients[k] == if k == j then r.clients[j] else t.clients[k];
    }
  }

  lemma NextTakes(s: State, t: State, targets: set<nat>, j: nat, f: Frame)
    requires j < |s.clients| == |t.clients| && t.clients[j] == s.clients[j]
    requires t.maxQueue == s.maxQueue && t.calloc == s.calloc
    requires t.allocations == s.allocations + Asked(s, targets, j, f)
    ensures Takes(t, j, f) <==> Served(s, targets, j, f)
  {
  }

  // ---------------------------------------------------------------- SAY

  /** The registered clients that have joined the channel of that name. */
  function Audience(s: State, channel: Bytes): set<nat> {
    set j: nat | j < |s.clients| && s.clients[j].fd >= 0 && s.clients[j].registered
                 && channel in JoinedSet(s.channels, s.clients[j].joined)
  }

  lemma AudienceIsTargets(s: State, name: Bytes)
    requires Good(s) && FindChannel(s.channels, name) >= 0
    ensures Targets(s, FindChannel(s.channels, name), -1) == Audience(s, name)
  {
    forall j: nat | j < |s.clients|
      ensures IsMember(s.clients[j], FindChannel(s.channels, name)) <==> j in Audience(s, name)
    {
      if s.clients[j].fd >= 0 { FoundIsInTable(s, s.clients[j], name); }
    }
  }

  /** ReadText without offsets: one string of at most 1024 bytes that does not start with a
      NUL, of which the core sees what is in front of its first NUL. */
  lemma TextExactly(payload: Bytes)
    ensures var u := UnpackStrings(payload);
      ReadText(payload) ==
      if u.Some? && |u.value| == 1 && |u.value[0]| <= 1024 && CStr(u.value[0]) != []
      then Some(CStr(u.value[0])) else None
  {
    assert payload[0..] == payload;
    ReadersAgree(payload, 0, [TEXT_CAP + 1]);
  }

  /** A name likewise: one string that fits the buffer, of which the part in front of its first
      NUL is taken if it is a name. */
  lemma NameExactly(payload: Bytes, cap: nat)
    requires cap <= 1024
    ensures var u := UnpackStrings(payload);
      ReadName(payload, cap) ==
      if u.Some? && |u.value| == 1 && |u.value[0]| <= cap && NameOk(CStr(u.value[0]), 1, cap)
      then Some(CStr(u.value[0])) else None
  {
    assert payload[0..] == payload;
    ReadersAgree(payload, 0, [cap + 1]);
  }

  /** A direct message likewise: the name of the target and a text, which may not be empty. */
  lemma DirectExactly(payload: Bytes)
    ensures var u := UnpackStrings(payload);
      ReadDirect(payload) ==
      if u.Some? && |u.value| == 2 && |u.value[0]| <= 32 && |u.value[1]| <= 1024 && CStr(u.value[1]) != []
      then Some(Direct(CStr(u.value[0]), CStr(u.value[1]))) else None
  {
    assert payload[0..] == payload;
    var u, caps := UnpackStrings(payload), [NAME_CAP + 1, TEXT_CAP + 1];
    ReadersAgree(payload, 0, caps);
    if u.Some? && |u.value| == 2 {
      assert FitCaps(u.value, caps) ==> |u.value[0]| < caps[0] && |u.value[1]| < caps[1];
    }
  }

  /** What broadcast_chat sends for a text. */
  function ChatFrame(c: Conn, text: Bytes): Frame
    requires Packable([c.active, c.username, text])
  {
    Frame(CHAT, PackStrings([c.active, c.username, text]))
  }

  /** A SAY is sent to the audience of the sender's active channel, the sender among it, and
      to nobody else: each of them is queued the message exactly when it has room and memory
      is there when its turn comes, and is dropped otherwise. */
  lemma SayOutcome(s: State, i: nat, payload: Bytes, text: Bytes)
    requires Sound(s) && Live(s, i) && s.clients[i].registered && s.clients[i].active != []
    requires ReadText(payload) == Some(text)
    ensures var c, r := s.clients[i], HandleFrame(s, i, Frame(SAY, payload));
      && Packable([c.active, c.username, text])
      && DecodeChat(ChatFrame(c, text)) == Some(Chat(c.active, c.username, text))
      && i in Audience(s, c.active)
      && Fanned(s, r, Audience(s, c.active), 128, ChatFrame(c, text))
      && r.log == s.log + [Chat(c.active, c.username, text)]
      && r.stats.channelMessages == s.stats.channelMessages + 1
  {
    var c := s.clients[i];
    HandlerOf(s, i, Frame(SAY, payload));
    CoreLaws.SayReachesItsChannel(s, i, payload);
    ChatFrameDecodes(Chat(c.active, c.username, text), MAX_PAYLOAD);
    var channel := FindChannel(s.channels, c.active);
    AudienceIsTargets(s, c.active);
    FoundIsInTable(s, c, c.active);
    FanoutExactly(s, |s.clients|, channel, -1, ChatFrame(c, text));
    FanoutBooks(s, |s.clients|, channel, -1, ChatFrame(c, text));
  }

  lemma FanoutBooks(s: State, n: nat, channel: int, except: int, f: Frame)
    requires Good(s) && n <= |s.clients|
    ensures var r := Fanout(s, n, channel, except, f);
      r.log == s.log && r.stats.channelMessages == s.stats.channelMessages
  {
    FanoutKeeps(s, n, channel, except, f);
  }

  /** Exactly the targets have one more frame queued. */
  predicate AllQueued(s: State, r: State, targets: set<nat>, f: Frame) {
    && |r.clients| == |s.clients|
    && forall j :: 0 <= j < |s.clients| ==>
         if j in targets then Queues(s.clients[j], r.clients[j], f) else r.clients[j] == s.clients[j]
  }

  /** If everybody in the audience has room and memory does not run out, then nobody is
      dropped and everybody gets exactly this message. */
  lemma SayReachesEverybody(s: State, i: nat, payload: Bytes, text: Bytes)
    requires Sound(s) && Live(s, i) && s.clients[i].registered && s.clients[i].active != []
    requires ReadText(payload) == Some(text)
    requires forall j :: j in Audience(s, s.clients[i].active) ==>
      TotalBytes(s.clients[j].queue) + 11 + |s.clients[i].active| + |s.clients[i].username| + |text| <= s.maxQueue
    requires forall k :: s.allocations <= k < s.allocations + 128 ==> s.calloc(k)
    ensures var c, r := s.clients[i], HandleFrame(s, i, Frame(SAY, payload));
      && Packable([c.active, c.username, text])
      && AllQueued(s, r, Audience(s, c.active), ChatFrame(c, text)) && r.closed == s.closed
  {
    var c, r := s.clients[i], HandleFrame(s, i, Frame(SAY, payload));
    SayOutcome(s, i, payload, text);
    CoreLaws.SayReachesItsChannel(s, i, payload);
    ThreeLong(c.active, c.username, text);
    NobodyDropped(s, Audience(s, c.active), 128, ChatFrame(c, text));
  }

  lemma ThreeLong(a: Bytes, b: Bytes, c: Bytes)
    requires Packable([a, b, c])
    ensures |PackStrings([a, b, c])| == |a| + |b| + |c| + 6
  {
    assert |[a, b, c][0]| < 0x1_0000 && |[a, b, c][1]| < 0x1_0000 && |[a, b, c][2]| < 0x1_0000;
    PackStringsSnoc([], a);
    PackStringsSnoc([a], b);
    PackStringsSnoc([a, b], c);
    assert [] + [a] == [a] && [a] + [b] == [a, b] && [a, b] + [c] == [a, b, c];
  }

  lemma {:induction false} NobodyDropped(s: State, targets: set<nat>, n: nat, f: Frame)
    requires forall j :: j in targets ==> j < |s.clients| && Room(s.maxQueue, s.clients[j].queue, f)
    requires forall k :: s.allocations <= k < s.allocations + n ==> s.calloc(k)
    ensures Dropped(s, targets, n, f) == [] && forall j :: j in targets && j < n ==> Served(s, targets, j, f)
  {
    if n > 0 { NobodyDropped(s, targets, n - 1, f); }
  }
}
