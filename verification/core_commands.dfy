/** Every command handler keeps the invariant of the core, whatever it drops on the way,
    and leaves the input side of every connection alone. */
module CoreCommands {
  import opened Bytes
  import opened Wire
  import opened Core
  import opened CoreInvariant
  import opened CoreDelivery

  lemma FindChannelGrows(channels: seq<Bytes>, name: Bytes, wanted: Bytes)
    ensures FindChannel(channels, wanted) >= 0 ==>
              FindChannel(channels + [name], wanted) == FindChannel(channels, wanted)
    ensures FindChannel(channels, name) < 0 ==> FindChannel(channels + [name], name) == |channels|
  {
    assert (channels + [name])[..|channels|] == channels;
  }

  lemma FindChannelAt(channels: seq<Bytes>, k: nat)
    requires TableOk(channels) && k < |channels|
    ensures FindChannel(channels, channels[k]) == k
  {
  }

  lemma NoEmptyChannel(channels: seq<Bytes>)
    requires TableOk(channels)
    ensures FindChannel(channels, []) < 0
  {
  }

  lemma SessionGrows(channels: seq<Bytes>, name: Bytes, c: Conn)
    requires SessionOk(channels, c)
    ensures SessionOk(channels + [name], c)
  {
    if c.active != [] {
      FindChannelGrows(channels, name, c.active);
    }
  }

  /** A new channel in the table disturbs nobody. */
  lemma TableGrows(s: State, name: Bytes)
    requires Sound(s)
    requires |s.channels| < MAX_CHANNELS && NameOk(name, 1, CHANNEL_CAP) && FindChannel(s.channels, name) < 0
    ensures var t := s.(channels := s.channels + [name]); Sound(t) && Calm(s, t)
  {
    var t := s.(channels := s.channels + [name]);
    forall i | 0 <= i < |s.clients| && s.clients[i].fd >= 0
      ensures ConnOk(t.channels, t.maxQueue, s.clients[i])
      ensures DeliveredTo(t.channels, t.log, s.clients[i])
    {
      SessionGrows(s.channels, name, s.clients[i]);
      assert DeliveredTo(s.channels, s.log, s.clients[i]);
    }
    assert ClientsOk(t);
    CalmStays(s);
  }

  lemma CalmOnUpdate(s: State, i: nat, c: Conn)
    requires ClientsOk(s) && Live(s, i) && SameConnection(s.clients[i], c)
    ensures Calm(s, Update(s, i, c))
  {
  }

  /** Change a live client's own fields, then answer it. */
  lemma ChangeAndAnswer(s: State, i: nat, c: Conn, f: Frame)
    requires Sound(s) && Live(s, i) && f.kind != CHAT
    requires ConnOk(s.channels, s.maxQueue, c) && DeliveredTo(s.channels, s.log, c)
    requires SameConnection(s.clients[i], c)
    requires c.registered ==> !InUse(s, c.username, i)
    ensures var r := Deliver(Update(s, i, c), i, f); Sound(r) && Calm(s, r)
  {
    UpdateSound(s, i, c);
    CalmOnUpdate(s, i, c);
    DeliverSound(Update(s, i, c), i, f);
    CalmTrans(s, Update(s, i, c), Deliver(Update(s, i, c), i, f));
  }

  lemma SaySound(s: State, i: nat, kind: byte, text: string)
    requires Sound(s) && Live(s, i) && kind != CHAT
    ensures Sound(Say(s, i, kind, text)) && Calm(s, Say(s, i, kind, text))
  {
    DeliverSound(s, i, Frame(kind, Ascii(text)));
  }

  lemma RenameKeeps(channels: seq<Bytes>, maxQueue: nat, log: seq<Chat>, c: Conn, name: Bytes)
    requires ConnOk(channels, maxQueue, c) && DeliveredTo(channels, log, c) && NameOk(name, 1, NAME_CAP)
    ensures ConnOk(channels, maxQueue, Rename(c, name)) && DeliveredTo(channels, log, Rename(c, name))
  {
    var d := Rename(c, name);
    assert c.active != [] ==> IsActive(channels, d);
  }

  lemma HelloSound(s: State, i: nat, payload: Bytes)
    requires Sound(s) && Live(s, i)
    ensures Sound(HandleHello(s, i, payload)) && Calm(s, HandleHello(s, i, payload))
  {
    match ReadName(payload, NAME_CAP)
    case None => SaySound(s, i, ERROR, "invalid username");
    case Some(name) =>
      if InUse(s, name, i) {
        SaySound(s, i, ERROR, "username already in use");
      } else {
        RenameKeeps(s.channels, s.maxQueue, s.log, s.clients[i], name);
        ChangeAndAnswer(s, i, Rename(s.clients[i], name), Frame(OK, Ascii("registered")));
      }
  }

  /** Joining and making active a channel of the table. */
  lemma EnterKeeps(s: State, c: Conn, channel: nat)
    requires TableOk(s.channels) && channel < |s.channels| && c.registered
    requires ConnOk(s.channels, s.maxQueue, c) && DeliveredTo(s.channels, s.log, c)
    ensures var d := Enter(s, c, channel).(active := s.channels[channel]);
      ConnOk(s.channels, s.maxQueue, d) && DeliveredTo(s.channels, s.log, d) && SameConnection(c, d)
  {
    var d := Enter(s, c, channel).(active := s.channels[channel]);
    FindChannelAt(s.channels, channel);
    assert IsActive(s.channels, d);
    forall k | 0 <= k < |s.channels| && k < |d.joined| && k < |d.history.since| && d.joined[k]
      ensures InStep(s.channels[k], d.history.since[k], d.history.accepted, s.log)
    {
      if k == channel && !c.joined[k] {
        assert c.history.accepted[|c.history.accepted|..] == [] && s.log[|s.log|..] == [];
      } else {
        assert InStep(s.channels[k], c.history.since[k], c.history.accepted, s.log);
      }
    }
  }

  lemma EnterSound(s: State, i: nat, channel: nat)
    requires Sound(s) && Live(s, i) && s.clients[i].registered && channel < |s.channels|
    ensures var name := s.channels[channel];
      var c := Enter(s, s.clients[i], channel).(active := name);
      var r := Deliver(Update(s, i, c), i, Frame(OK, Ascii("joined ") + name));
      Sound(r) && Calm(s, r)
  {
    EnterKeeps(s, s.clients[i], channel);
    OwnNameIsFree(s, i);
    var name := s.channels[channel];
    ChangeAndAnswer(s, i, Enter(s, s.clients[i], channel).(active := name), Frame(OK, Ascii("joined ") + name));
  }

  lemma JoinSound(s: State, i: nat, payload: Bytes)
    requires Sound(s) && Live(s, i)
    ensures Sound(JoinChannel(s, i, payload)) && Calm(s, JoinChannel(s, i, payload))
  {
    if !s.clients[i].registered {
      SaySound(s, i, ERROR, "send HELLO first");
    } else {
      match ReadName(payload, CHANNEL_CAP)
      case None => SaySound(s, i, ERROR, "invalid channel");
      case Some(name) =>
        var found := FindChannel(s.channels, name);
        if found < 0 && |s.channels| >= MAX_CHANNELS {
          SaySound(s, i, ERROR, "too many channels");
        } else if found < 0 {
          var t := s.(channels := s.channels + [name]);
          TableGrows(s, name);
          EnterSound(t, i, |s.channels|);
          CalmTrans(s, t, JoinChannel(s, i, payload));
        } else {
          EnterSound(s, i, found);
        }
    }
  }

  lemma SwitchSound(s: State, i: nat, payload: Bytes)
    requires Sound(s) && Live(s, i)
    ensures Sound(SwitchChannel(s, i, payload)) && Calm(s, SwitchChannel(s, i, payload))
  {
    var c := s.clients[i];
    if !c.registered {
      SaySound(s, i, ERROR, "send HELLO first");
    } else {
      match ReadName(payload, CHANNEL_CAP)
      case None => SaySound(s, i, ERROR, "invalid channel");
      case Some(name) => SwitchNamedSound(s, i, name);
    }
  }

  lemma SwitchNamedSound(s: State, i: nat, name: Bytes)
    requires Sound(s) && Live(s, i) && s.clients[i].registered && NameOk(name, 1, CHANNEL_CAP)
    ensures Sound(SwitchNamed(s, i, name)) && Calm(s, SwitchNamed(s, i, name))
  {
    var c := s.clients[i];
    var channel := FindChannel(s.channels, name);
    if !(0 <= channel < |c.joined| && c.joined[channel]) {
      SaySound(s, i, ERROR, "join channel before switching");
    } else {
      var d := c.(active := name);
      assert IsActive(s.channels, d);
      assert DeliveredTo(s.channels, s.log, c);
      OwnNameIsFree(s, i);
      ChangeAndAnswer(s, i, d, Frame(OK, Ascii("switched ") + name));
    }
  }

  lemma LeaveKeeps(channels: seq<Bytes>, maxQueue: nat, log: seq<Chat>, c: Conn, channel: nat)
    requires TableOk(channels) && channel < |channels|
    requires ConnOk(channels, maxQueue, c) && DeliveredTo(channels, log, c)
    ensures var d := c.(joined := c.joined[channel := false],
                        active := if c.active == channels[channel] then [] else c.active);
      ConnOk(channels, maxQueue, d) && DeliveredTo(channels, log, d) && SameConnection(c, d)
  {
    var d := c.(joined := c.joined[channel := false],
                active := if c.active == channels[channel] then [] else c.active);
    if d.active != [] {
      assert IsActive(channels, c);
      assert FindChannel(channels, c.active) != channel;
      assert IsActive(channels, d);
    }
    forall k | 0 <= k < |channels| && k < |d.joined| && k < |d.history.since| && d.joined[k]
      ensures InStep(channels[k], d.history.since[k], d.history.accepted, log)
    {
      assert c.joined[k];
    }
  }

  lemma LeaveSound(s: State, i: nat, payload: Bytes)
    requires Sound(s) && Live(s, i)
    ensures Sound(LeaveChannel(s, i, payload)) && Calm(s, LeaveChannel(s, i, payload))
  {
    var c := s.clients[i];
    match ReadName(payload, CHANNEL_CAP)
    case None => SaySound(s, i, ERROR, "invalid channel");
    case Some(name) =>
      var channel := FindChannel(s.channels, name);
      if !(0 <= channel < |c.joined| && c.joined[channel]) {
        SaySound(s, i, ERROR, "not in channel");
      } else {
        LeaveKeeps(s.channels, s.maxQueue, s.log, c, channel);
        if c.registered {
          OwnNameIsFree(s, i);
        }
        var d := c.(joined := c.joined[channel := false], active := if c.active == name then [] else c.active);
        ChangeAndAnswer(s, i, d, Frame(OK, Ascii("left channel")));
      }
  }

  lemma OverflowedSound(s: State, i: nat)
    requires Sound(s) && Live(s, i)
    ensures Sound(Overflowed(s, i)) && Calm(s, Overflowed(s, i))
  {
    OverflowedKeeps(s, i);
  }

  lemma EnqueueSound(s: State, i: nat, f: Frame)
    requires Sound(s) && Live(s, i) && f.kind != CHAT
    ensures var e := Enqueue(s, i, f); Sound(e.state) && Calm(s, e.state) && SameSlots(s, e.state)
  {
    EnqueueKeeps(s, i, f);
    var e := Enqueue(s, i, f);
    assert e.state.channels == s.channels && e.state.log == s.log;
    if e.ok {
      PushDelivers(s, i, f);
      assert e.state.clients == Update(s, i, Push(s.clients[i], f)).clients;
    }
  }

  ghost predicate SameSlots(s: State, r: State) {
    forall j :: Live(r, j) <==> Live(s, j)
  }

  lemma PushDelivers(s: State, i: nat, f: Frame)
    requires Sound(s) && Live(s, i) && f.kind != CHAT && |f.payload| <= MAX_PAYLOAD
    ensures Delivered(Update(s, i, Push(s.clients[i], f)))
  {
    OtherFrameKeepsStep(s.channels, s.log, s.clients[i], f);
  }

  lemma RelaySound(s: State, i: nat, target: nat, f: Frame)
    requires Sound(s) && Live(s, i) && Live(s, target) && f.kind != CHAT
    ensures Sound(Relay(s, i, target, f)) && Calm(s, Relay(s, i, target, f))
  {
    EnqueueSound(s, target, f);
    var e := Enqueue(s, target, f);
    if !e.ok {
      OverflowedSound(e.state, target);
      CalmTrans(s, e.state, Overflowed(e.state, target));
    } else {
      CountDirectSound(e.state);
      SaySound(CountDirect(e.state), i, OK, "direct message sent");
      CalmTrans(s, e.state, CountDirect(e.state));
      CalmTrans(s, CountDirect(e.state), Relay(s, i, target, f));
    }
  }

  lemma CountDirectSound(s: State)
    requires Sound(s)
    ensures Sound(CountDirect(s)) && Calm(s, CountDirect(s))
  {
    CalmStays(s);
  }

  lemma DmSound(s: State, i: nat, payload: Bytes)
    requires Sound(s) && Live(s, i)
    ensures Sound(HandleDm(s, i, payload)) && Calm(s, HandleDm(s, i, payload))
  {
    if !s.clients[i].registered {
      SaySound(s, i, ERROR, "send HELLO first");
    } else {
      match ReadDirect(payload)
      case None => SaySound(s, i, ERROR, "invalid direct message");
      case Some(dm) =>
        var target := FindUser(s.clients, dm.target);
        if target < 0 {
          SaySound(s, i, ERROR, "user not found");
        } else {
          match Written([s.clients[i].username, dm.text], MAX_PAYLOAD)
          case None => OverflowedSound(s, target);
          case Some(p) => RelaySound(s, i, target, Frame(DM_RECV, p));
        }
    }
  }

  /** NICK goes on after its answer even if that dropped the client itself; an emptied
      slot has no active channel, so nothing is announced then. */
  lemma AnnounceSound(s: State, i: nat, text: Bytes)
    requires Sound(s) && i < |s.clients|
    ensures Sound(Announce(s, i, text)) && Calm(s, Announce(s, i, text))
    ensures !Live(s, i) ==> Announce(s, i, text) == s
  {
    CalmStays(s);
    NoEmptyChannel(s.channels);
    var channel := FindChannel(s.channels, s.clients[i].active);
    if channel >= 0 {
      FanoutSound(s, channel, i, Frame(SYSTEM, text));
    }
  }

  lemma NickSound(s: State, i: nat, payload: Bytes)
    requires Sound(s) && Live(s, i)
    ensures Sound(HandleNick(s, i, payload)) && Calm(s, HandleNick(s, i, payload))
  {
    match ReadName(payload, NAME_CAP)
    case None => SaySound(s, i, ERROR, "invalid username");
    case Some(name) =>
      if InUse(s, name, i) {
        SaySound(s, i, ERROR, "username already in use");
      } else {
        RenameKeeps(s.channels, s.maxQueue, s.log, s.clients[i], name);
        ChangeAndAnswer(s, i, Rename(s.clients[i], name), Frame(OK, Ascii("username changed")));
        var t := Say(Update(s, i, Rename(s.clients[i], name)), i, OK, "username changed");
        AnnounceSound(t, i, Notice(s.clients[i].username, name));
        CalmTrans(s, t, Announce(t, i, Notice(s.clients[i].username, name)));
      }
  }

  lemma HandleSaySound(s: State, i: nat, payload: Bytes)
    requires Sound(s) && Live(s, i)
    ensures Sound(HandleSay(s, i, payload)) && Calm(s, HandleSay(s, i, payload))
  {
    if !s.clients[i].registered {
      SaySound(s, i, ERROR, "send HELLO first");
    } else if s.clients[i].active == [] {
      SaySound(s, i, ERROR, "join a channel before sending");
    } else {
      match ReadText(payload)
      case None => SaySound(s, i, ERROR, "invalid message");
      case Some(text) => BroadcastSound(s, i, text);
    }
  }

  lemma WhoSound(s: State, i: nat)
    requires Sound(s) && Live(s, i)
    ensures Sound(SendWho(s, i)) && Calm(s, SendWho(s, i))
  {
    var channel := FindChannel(s.channels, s.clients[i].active);
    if channel < 0 {
      SaySound(s, i, ERROR, "join a channel before listing participants");
    } else {
      match Lines(Members(s.clients, channel), MAX_PAYLOAD)
      case None => SaySound(s, i, ERROR, "WHO response too large");
      case Some(text) => DeliverSound(s, i, Frame(WHO_RESP, text));
    }
  }

  lemma ListSound(s: State, i: nat)
    requires Sound(s) && Live(s, i)
    ensures Sound(SendList(s, i)) && Calm(s, SendList(s, i))
  {
    match Lines(s.channels, MAX_PAYLOAD)
    case None => SaySound(s, i, ERROR, "LIST response too large");
    case Some(text) => DeliverSound(s, i, Frame(LIST_RESP, text));
  }

  lemma StatsSound(s: State, i: nat)
    requires Sound(s) && Live(s, i)
    ensures Sound(SendStats(s, i)) && Calm(s, SendStats(s, i))
  {
    var text := StatsText(s.stats, CountRegistered(s.clients), |s.channels|, s.maxQueue);
    if |text| >= MAX_PAYLOAD {
      SaySound(s, i, ERROR, "stats response too large");
    } else {
      DeliverSound(s, i, Frame(STATS_RESP, text));
    }
  }

  /** Whatever one frame makes the core do. */
  lemma HandleFrameSound(s: State, i: nat, f: Frame)
    requires Sound(s) && Live(s, i)
    ensures Sound(HandleFrame(s, i, f)) && Calm(s, HandleFrame(s, i, f))
  {
    if f.kind == HELLO { HelloSound(s, i, f.payload); }
    else if f.kind == JOIN { JoinSound(s, i, f.payload); }
    else if f.kind == SWITCH { SwitchSound(s, i, f.payload); }
    else if f.kind == LEAVE { LeaveSound(s, i, f.payload); }
    else if f.kind == SAY { HandleSaySound(s, i, f.payload); }
    else if f.kind == DM { DmSound(s, i, f.payload); }
    else if f.kind == WHO { WhoSound(s, i); }
    else if f.kind == LIST { ListSound(s, i); }
    else if f.kind == NICK { NickSound(s, i, f.payload); }
    else if f.kind == QUIT { ResetSound(s, i, ClientQuit); }
    else if f.kind == STATS { StatsSound(s, i); }
    else { SaySound(s, i, ERROR, "unknown message type"); }
  }
}
