/** Total-order delivery: what a member of a channel has been queued since it joined is
    exactly what was broadcast to that channel since then, in that order. */
module CoreDelivery {
  import opened Bytes
  import opened Wire
  import opened Core
  import opened CoreInvariant

  /** A CHAT frame as the client library reads it. */
  function DecodeChat(f: Frame): Option<Chat> {
    if f.kind != CHAT then None
    else
      match UnpackStrings(f.payload)
      case None => None
      case Some(vs) => if |vs| == 3 then Some(Chat(vs[0], vs[1], vs[2])) else None
  }

  /** The chat messages for one channel among some frames, in order. */
  function ChatsIn(channel: Bytes, fs: seq<Frame>): seq<Chat> {
    if fs == [] then []
    else
      var d := DecodeChat(fs[|fs| - 1]);
      ChatsIn(channel, fs[..|fs| - 1]) + (if d.Some? && d.value.channel == channel then [d.value] else [])
  }

  /** The broadcasts to one channel, in order. */
  function LogFor(channel: Bytes, log: seq<Chat>): seq<Chat> {
    if log == [] then []
    else
      var m := log[|log| - 1];
      LogFor(channel, log[..|log| - 1]) + (if m.channel == channel then [m] else [])
  }

  predicate InStep(channel: Bytes, since: Mark, accepted: seq<Frame>, log: seq<Chat>) {
    && since.acceptedAt <= |accepted| && since.loggedAt <= |log|
    && ChatsIn(channel, accepted[since.acceptedAt..]) == LogFor(channel, log[since.loggedAt..])
  }

  predicate DeliveredTo(channels: seq<Bytes>, log: seq<Chat>, c: Conn) {
    forall k :: 0 <= k < |channels| && k < |c.joined| && k < |c.history.since| && c.joined[k] ==>
      InStep(channels[k], c.history.since[k], c.history.accepted, log)
  }

  predicate Delivered(s: State) {
    forall i :: 0 <= i < |s.clients| && s.clients[i].fd >= 0 ==> DeliveredTo(s.channels, s.log, s.clients[i])
  }

  /** The whole invariant of the core. */
  predicate Sound(s: State) {
    Good(s) && Delivered(s)
  }

  lemma ChatsInSnoc(channel: Bytes, fs: seq<Frame>, at: nat, f: Frame)
    requires at <= |fs|
    ensures var d := DecodeChat(f);
      ChatsIn(channel, (fs + [f])[at..])
      == ChatsIn(channel, fs[at..]) + (if d.Some? && d.value.channel == channel then [d.value] else [])
  {
    assert (fs + [f])[at..] == fs[at..] + [f];
    assert (fs[at..] + [f])[..|fs[at..]|] == fs[at..];
  }

  lemma LogForSnoc(channel: Bytes, log: seq<Chat>, at: nat, m: Chat)
    requires at <= |log|
    ensures LogFor(channel, (log + [m])[at..])
         == LogFor(channel, log[at..]) + (if m.channel == channel then [m] else [])
  {
    assert (log + [m])[at..] == log[at..] + [m];
    assert (log[at..] + [m])[..|log[at..]|] == log[at..];
  }

  /** Frames of other kinds do not disturb the order. */
  lemma OtherFrameKeepsStep(channels: seq<Bytes>, log: seq<Chat>, c: Conn, f: Frame)
    requires DeliveredTo(channels, log, c)
    requires f.kind != CHAT && |f.payload| <= MAX_PAYLOAD
    ensures DeliveredTo(channels, log, Push(c, f))
  {
    forall k | 0 <= k < |channels| && k < |c.joined| && k < |c.history.since| && c.joined[k]
      ensures InStep(channels[k], c.history.since[k], c.history.accepted + [f], log)
    {
      assert InStep(channels[k], c.history.since[k], c.history.accepted, log);
      ChatsInSnoc(channels[k], c.history.accepted, c.history.since[k].acceptedAt, f);
    }
  }

  /** A member that gets the frame stays in step with the longer log. */
  lemma MemberStaysInStep(channels: seq<Bytes>, log: seq<Chat>, c: Conn, f: Frame, m: Chat)
    requires DeliveredTo(channels, log, c)
    requires DecodeChat(f) == Some(m) && |f.payload| <= MAX_PAYLOAD
    ensures DeliveredTo(channels, log + [m], Push(c, f))
  {
    forall k | 0 <= k < |channels| && k < |c.joined| && k < |c.history.since| && c.joined[k]
      ensures InStep(channels[k], c.history.since[k], c.history.accepted + [f], log + [m])
    {
      assert InStep(channels[k], c.history.since[k], c.history.accepted, log);
      ChatsInSnoc(channels[k], c.history.accepted, c.history.since[k].acceptedAt, f);
      LogForSnoc(channels[k], log, c.history.since[k].loggedAt, m);
    }
  }

  /** A client outside the channel stays in step with every channel it is in. */
  lemma OutsiderStaysInStep(channels: seq<Bytes>, log: seq<Chat>, c: Conn, m: Chat)
    requires DeliveredTo(channels, log, c)
    requires forall k :: 0 <= k < |channels| && k < |c.joined| && c.joined[k] ==> channels[k] != m.channel
    ensures DeliveredTo(channels, log + [m], c)
  {
    forall k | 0 <= k < |channels| && k < |c.joined| && k < |c.history.since| && c.joined[k]
      ensures InStep(channels[k], c.history.since[k], c.history.accepted, log + [m])
    {
      assert InStep(channels[k], c.history.since[k], c.history.accepted, log);
      LogForSnoc(channels[k], log, c.history.since[k].loggedAt, m);
    }
  }

  // ---------------------------------------------------------------- primitives

  lemma DeliverSound(s: State, i: nat, f: Frame)
    requires Sound(s) && Live(s, i) && f.kind != CHAT
    ensures Sound(Deliver(s, i, f)) && Calm(s, Deliver(s, i, f))
  {
    DeliverKeeps(s, i, f);
    if |f.payload| <= MAX_PAYLOAD {
      OtherFrameKeepsStep(s.channels, s.log, s.clients[i], f);
    }
  }

  lemma ResetSound(s: State, i: nat, why: Reason)
    requires Sound(s) && Live(s, i) && why != Overflow
    ensures Sound(Reset(s, i, why)) && Calm(s, Reset(s, i, why)) && !Live(Reset(s, i, why), i)
  {
    ResetKeeps(s, i, why);
  }

  lemma UpdateSound(s: State, i: nat, c: Conn)
    requires Sound(s) && Live(s, i)
    requires ConnOk(s.channels, s.maxQueue, c) && DeliveredTo(s.channels, s.log, c)
    requires c.fd == s.clients[i].fd && c.history.serial == s.clients[i].history.serial
    requires c.registered ==> !InUse(s, c.username, i)
    ensures Sound(Update(s, i, c))
  {
    UpdateKeeps(s, i, c);
  }

  // ------------------------------------------------------------------- fan-out

  /** What the rounds of a fan-out have done to slot j. */
  predicate Reached(c: Conn, d: Conn, targeted: bool, f: Frame) {
    if targeted then d == Blank() || (|f.payload| <= MAX_PAYLOAD && d == Push(c, f)) else d == c
  }

  lemma {:induction false} FanoutKeeps(s: State, n: nat, channel: int, except: int, f: Frame)
    requires Good(s) && n <= |s.clients|
    ensures var r := Fanout(s, n, channel, except, f);
      && Good(r) && Calm(s, r)
      && r.channels == s.channels && r.log == s.log
  {
    if n == 0 {
      CalmStays(s);
    } else {
      FanoutKeeps(s, n - 1, channel, except, f);
      var t := Fanout(s, n - 1, channel, except, f);
      RoundReaches(t, n - 1, channel, except, f);
      CalmTrans(s, t, Round(t, n - 1, channel, except, f));
    }
  }

  /** Each member of the channel gets exactly the one frame or is dropped; every other
      client is untouched. */
  lemma {:induction false} FanoutReaches(s: State, n: nat, channel: int, except: int, f: Frame)
    requires Good(s) && n <= |s.clients|
    ensures AllReached(s, Fanout(s, n, channel, except, f), n, channel, except, f)
  {
    if n > 0 {
      FanoutReaches(s, n - 1, channel, except, f);
      FanoutKeeps(s, n - 1, channel, except, f);
      var t := Fanout(s, n - 1, channel, except, f);
      RoundReaches(t, n - 1, channel, except, f);
      OneMoreReached(s, t, Round(t, n - 1, channel, except, f), n, channel, except, f);
    }
  }

  lemma RoundReaches(s: State, j: nat, channel: int, except: int, f: Frame)
    requires Good(s) && j < |s.clients|
    ensures var r := Round(s, j, channel, except, f);
      && Good(r) && Calm(s, r)
      && r.channels == s.channels && r.log == s.log
      && r.clients == s.clients[j := r.clients[j]]
      && Reached(s.clients[j], r.clients[j], j != except && IsMember(s.clients[j], channel), f)
  {
    CalmStays(s);
    if j != except && IsMember(s.clients[j], channel) {
      DeliverKeeps(s, j, f);
    }
  }

  predicate AllReached(s: State, r: State, n: nat, channel: int, except: int, f: Frame) {
    && |r.clients| == |s.clients|
    && forall j :: 0 <= j < |s.clients| ==>
         Reached(s.clients[j], r.clients[j], j < n && j != except && IsMember(s.clients[j], channel), f)
  }

  lemma OneMoreReached(s: State, t: State, r: State, n: nat, channel: int, except: int, f: Frame)
    requires 0 < n <= |s.clients| && AllReached(s, t, n - 1, channel, except, f)
    requires |r.clients| == |t.clients| && r.clients == t.clients[n - 1 := r.clients[n - 1]]
    requires Reached(t.clients[n - 1], r.clients[n - 1], n - 1 != except && IsMember(t.clients[n - 1], channel), f)
    ensures AllReached(s, r, n, channel, except, f)
  {
    assert Reached(s.clients[n - 1], t.clients[n - 1], false, f);
    forall j | 0 <= j < |s.clients|
      ensures Reached(s.clients[j], r.clients[j], j < n && j != except && IsMember(s.clients[j], channel), f)
    {
      assert Reached(s.clients[j], t.clients[j], j < n - 1 && j != except && IsMember(s.clients[j], channel), f);
    }
  }

  /** A fan-out of another kind than CHAT keeps everybody in step. */
  lemma FanoutSound(s: State, channel: int, except: int, f: Frame)
    requires Sound(s) && f.kind != CHAT
    ensures var r := Fanout(s, |s.clients|, channel, except, f); Sound(r) && Calm(s, r)
  {
    FanoutKeeps(s, |s.clients|, channel, except, f);
    FanoutReaches(s, |s.clients|, channel, except, f);
    var r := Fanout(s, |s.clients|, channel, except, f);
    forall i | 0 <= i < |r.clients| && r.clients[i].fd >= 0
      ensures DeliveredTo(r.channels, r.log, r.clients[i])
    {
      assert Reached(s.clients[i], r.clients[i], i != except && IsMember(s.clients[i], channel), f);
      if |f.payload| <= MAX_PAYLOAD {
        OtherFrameKeepsStep(s.channels, s.log, s.clients[i], f);
      }
    }
  }

  /** The CHAT frame broadcast_chat builds is read by the client library as the channel,
      the sender and the text. */
  lemma ChatFrameDecodes(m: Chat, cap: nat)
    requires Written([m.channel, m.sender, m.text], cap).Some?
    ensures DecodeChat(Frame(CHAT, Written([m.channel, m.sender, m.text], cap).value)) == Some(m)
  {
    var vs := [m.channel, m.sender, m.text];
    UnpackInvertsPack(vs);
  }

  /** A broadcast reaches or drops every member of the sender's channel, is logged once,
      and leaves everybody in step, whoever was dropped on the way. */
  lemma BroadcastSound(s: State, i: nat, text: Bytes)
    requires Sound(s) && Live(s, i)
    ensures Sound(Broadcast(s, i, text)) && Calm(s, Broadcast(s, i, text))
  {
    var c := s.clients[i];
    var channel := FindChannel(s.channels, c.active);
    var written := Written([c.active, c.username, text], MAX_PAYLOAD);
    if channel < 0 {
      DeliverSound(s, i, Frame(ERROR, Ascii("join a channel before sending")));
    } else if written.None? {
      DeliverSound(s, i, Frame(ERROR, Ascii("message payload too large")));
    } else {
      var m := Chat(c.active, c.username, text);
      ChatFrameDecodes(m, MAX_PAYLOAD);
      ChatFanoutSound(s, channel, Frame(CHAT, written.value), m);
    }
  }

  lemma LoggedKeeps(s: State, m: Chat)
    requires Good(s)
    ensures Good(Logged(s, m)) && Calm(s, Logged(s, m))
  {
    CalmStays(s);
  }

  lemma ChatFanoutSound(s: State, channel: nat, f: Frame, m: Chat)
    requires Sound(s) && channel < |s.channels| && s.channels[channel] == m.channel
    requires DecodeChat(f) == Some(m)
    ensures var r := Logged(Fanout(s, |s.clients|, channel, -1, f), m); Sound(r) && Calm(s, r)
  {
    var t := Fanout(s, |s.clients|, channel, -1, f);
    FanoutKeeps(s, |s.clients|, channel, -1, f);
    FanoutReaches(s, |s.clients|, channel, -1, f);
    LoggedKeeps(t, m);
    CalmTrans(s, t, Logged(t, m));
    forall j | 0 <= j < |t.clients| && t.clients[j].fd >= 0
      ensures DeliveredTo(s.channels, s.log + [m], t.clients[j])
    {
      ChatReaches(s, t, channel, f, m, j);
    }
  }

  /** A live client that is no member of a channel has no flag up under that name. */
  lemma NotUnderThatName(s: State, channel: nat, j: nat)
    requires Good(s) && channel < |s.channels| && Live(s, j) && !IsMember(s.clients[j], channel)
    ensures forall k :: 0 <= k < |s.channels| && k < |s.clients[j].joined| && s.clients[j].joined[k] ==>
              s.channels[k] != s.channels[channel]
  {
  }

  lemma ChatReaches(s: State, t: State, channel: nat, f: Frame, m: Chat, j: nat)
    requires Sound(s) && channel < |s.channels| && s.channels[channel] == m.channel && DecodeChat(f) == Some(m)
    requires AllReached(s, t, |s.clients|, channel, -1, f) && Live(t, j)
    ensures DeliveredTo(s.channels, s.log + [m], t.clients[j])
  {
    var c := s.clients[j];
    assert Reached(c, t.clients[j], IsMember(c, channel), f);
    assert DeliveredTo(s.channels, s.log, c);
    if IsMember(c, channel) {
      MemberStaysInStep(s.channels, s.log, c, f, m);
    } else {
      NotUnderThatName(s, channel, j);
      OutsiderStaysInStep(s.channels, s.log, c, m);
    }
  }
}
