/** What becomes of connections and of the books while frames are handled: a client goes on
    or its history is among those closed, broadcasts are logged by SAY only and direct
    messages counted by DM only. */
module CoreClosed {
  import opened Bytes
  import opened Wire
  import opened Core
  import CoreDelivery
  import CoreInvariant
  import CoreLaws

  // ---------------------------------------------------------------- connections

  /** The same connection later: what it has accepted has at most grown. */
  predicate Follows(h: History, g: History) {
    g.serial == h.serial && h.accepted <= g.accepted
  }

  predicate Held(c: Conn, d: Conn) {
    d.fd >= 0 && d.registered == c.registered && Follows(c.history, d.history)
  }

  predicate Ended(closed: seq<Closed>, h: History) {
    exists k :: 0 <= k < |closed| && Follows(h, closed[k].history)
  }

  predicate Accounted(c: Conn, d: Conn, closed: seq<Closed>) {
    if d.fd >= 0 then c.fd >= 0 && Held(c, d) else c.fd >= 0 ==> Ended(closed, c.history)
  }

  /** Every connection of s is still in its slot or among those closed, and there is none
      that was not there. */
  predicate Moves(s: State, r: State) {
    && |r.clients| == |s.clients| && s.closed <= r.closed
    && forall j :: 0 <= j < |s.clients| ==> Accounted(s.clients[j], r.clients[j], r.closed)
  }

  /** No broadcast has been logged and no direct message counted. */
  predicate SameBooks(s: State, r: State) {
    r.log == s.log && r.stats.directMessages == s.stats.directMessages
  }

  lemma AccountedOn(c: Conn, d: Conn, e: Conn, closed: seq<Closed>, more: seq<Closed>)
    requires Accounted(c, d, closed) && Accounted(d, e, more) && closed <= more
    ensures Accounted(c, e, more)
  {
    if e.fd < 0 && d.fd >= 0 {
      var k :| 0 <= k < |more| && Follows(d.history, more[k].history);
      assert Follows(c.history, more[k].history);
    } else if e.fd < 0 && c.fd >= 0 {
      var k :| 0 <= k < |closed| && Follows(c.history, closed[k].history);
      assert more[k] == closed[k];
    }
  }

  lemma MovesOn(s: State, t: State, r: State)
    requires Moves(s, t) && Moves(t, r)
    ensures Moves(s, r)
  {
    forall j | 0 <= j < |s.clients| ensures Accounted(s.clients[j], r.clients[j], r.closed) {
      AccountedOn(s.clients[j], t.clients[j], r.clients[j], t.closed, r.closed);
    }
  }

  lemma MovesNowhere(s: State)
    ensures Moves(s, s)
  {
    forall j | 0 <= j < |s.clients| ensures Accounted(s.clients[j], s.clients[j], s.closed) {}
  }

  /** One slot changes and nothing is closed. */
  lemma SlotMoves(s: State, i: nat, r: State)
    requires i < |s.clients| == |r.clients| && r.clients == s.clients[i := r.clients[i]] && r.closed == s.closed
    requires if r.clients[i].fd >= 0 then s.clients[i].fd >= 0 && Held(s.clients[i], r.clients[i])
             else s.clients[i].fd < 0
    ensures Moves(s, r)
  {
    forall j | 0 <= j < |s.clients| ensures Accounted(s.clients[j], r.clients[j], r.closed) {}
  }

  lemma ResetMoves(s: State, i: nat, why: Reason)
    requires i < |s.clients|
    ensures Moves(s, Reset(s, i, why)) && SameBooks(s, Reset(s, i, why))
  {
    var r := Reset(s, i, why);
    if s.clients[i].fd >= 0 {
      assert Follows(s.clients[i].history, r.closed[|s.closed|].history);
    }
    forall j | 0 <= j < |s.clients| ensures Accounted(s.clients[j], r.clients[j], r.closed) {}
  }

  lemma DeliverMoves(s: State, i: nat, f: Frame)
    requires i < |s.clients|
    ensures Moves(s, Deliver(s, i, f)) && SameBooks(s, Deliver(s, i, f))
  {
    var e := Enqueue(s, i, f);
    if e.ok {
      SlotMoves(s, i, e.state);
    } else {
      var t := e.state.(stats := e.state.stats.(queueDisconnects := e.state.stats.queueDisconnects + 1));
      SlotMoves(s, i, t);
      ResetMoves(t, i, Overflow);
      MovesOn(s, t, Reset(t, i, Overflow));
    }
  }

  /** A command that changes its client, and perhaps the table of channels, and answers. */
  lemma AnswerMoves(s: State, t: State, i: nat, f: Frame)
    requires i < |s.clients| == |t.clients| && t.clients == s.clients[i := t.clients[i]] && t.closed == s.closed
    requires s.clients[i].fd >= 0 && Held(s.clients[i], t.clients[i])
    ensures Moves(s, Deliver(t, i, f)) && SameBooks(t, Deliver(t, i, f))
  {
    SlotMoves(s, i, t);
    DeliverMoves(t, i, f);
    MovesOn(s, t, Deliver(t, i, f));
  }

  lemma {:induction false} FanoutMoves(s: State, n: nat, channel: int, except: int, f: Frame)
    requires n <= |s.clients|
    ensures var r := Fanout(s, n, channel, except, f); Moves(s, r) && SameBooks(s, r)
  {
    if n == 0 {
      MovesNowhere(s);
    } else {
      var t := Fanout(s, n - 1, channel, except, f);
      FanoutMoves(s, n - 1, channel, except, f);
      RoundMoves(t, n - 1, channel, except, f);
      MovesOn(s, t, Round(t, n - 1, channel, except, f));
    }
  }

  lemma RoundMoves(s: State, j: nat, channel: int, except: int, f: Frame)
    requires j < |s.clients|
    ensures var r := Round(s, j, channel, except, f); Moves(s, r) && SameBooks(s, r)
  {
    MovesNowhere(s);
    if j != except && IsMember(s.clients[j], channel) { DeliverMoves(s, j, f); }
  }

  lemma AnnounceMoves(s: State, i: nat, text: Bytes)
    requires i < |s.clients|
    ensures Moves(s, Announce(s, i, text)) && SameBooks(s, Announce(s, i, text))
  {
    var channel := FindChannel(s.channels, s.clients[i].active);
    MovesNowhere(s);
    if channel >= 0 { FanoutMoves(s, |s.clients|, channel, i, Frame(SYSTEM, text)); }
  }

  // ---------------------------------------------------------------- commands

  lemma NamedMoves(s: State, i: nat, name: Bytes, text: string)
    requires Live(s, i) && s.clients[i].registered
    ensures var r := Say(Update(s, i, Rename(s.clients[i], name)), i, OK, text);
            Moves(s, r) && SameBooks(s, r)
  {
    AnswerMoves(s, Update(s, i, Rename(s.clients[i], name)), i, Frame(OK, Ascii(text)));
  }

  lemma HelloMoves(s: State, i: nat, payload: Bytes)
    requires Live(s, i) && s.clients[i].registered
    ensures Moves(s, HandleHello(s, i, payload)) && SameBooks(s, HandleHello(s, i, payload))
  {
    DeliverMoves(s, i, Frame(ERROR, Ascii("invalid username")));
    DeliverMoves(s, i, Frame(ERROR, Ascii("username already in use")));
    if ReadName(payload, NAME_CAP).Some? {
      NamedMoves(s, i, ReadName(payload, NAME_CAP).value, "registered");
    }
  }

  lemma NickMoves(s: State, i: nat, payload: Bytes)
    requires Live(s, i) && s.clients[i].registered
    ensures Moves(s, HandleNick(s, i, payload)) && SameBooks(s, HandleNick(s, i, payload))
  {
    DeliverMoves(s, i, Frame(ERROR, Ascii("invalid username")));
    DeliverMoves(s, i, Frame(ERROR, Ascii("username already in use")));
    if ReadName(payload, NAME_CAP).Some? {
      var name := ReadName(payload, NAME_CAP).value;
      var t := Say(Update(s, i, Rename(s.clients[i], name)), i, OK, "username changed");
      NamedMoves(s, i, name, "username changed");
      AnnounceMoves(t, i, Notice(s.clients[i].username, name));
      MovesOn(s, t, Announce(t, i, Notice(s.clients[i].username, name)));
    }
  }

  lemma JoinMoves(s: State, i: nat, name: Bytes)
    requires Live(s, i)
    ensures Moves(s, EnterNamed(s, i, name)) && SameBooks(s, EnterNamed(s, i, name))
  {
    var found := FindChannel(s.channels, name);
    if found < 0 && |s.channels| >= MAX_CHANNELS {
      DeliverMoves(s, i, Frame(ERROR, Ascii("too many channels")));
    } else {
      var t := if found < 0 then s.(channels := s.channels + [name]) else s;
      var c := Enter(t, t.clients[i], if found < 0 then |s.channels| else found).(active := name);
      AnswerMoves(s, Update(t, i, c), i, Frame(OK, Ascii("joined ") + name));
    }
  }

  lemma SwitchMoves(s: State, i: nat, name: Bytes)
    requires Live(s, i)
    ensures Moves(s, SwitchNamed(s, i, name)) && SameBooks(s, SwitchNamed(s, i, name))
  {
    var c := s.clients[i];
    DeliverMoves(s, i, Frame(ERROR, Ascii("join channel before switching")));
    AnswerMoves(s, Update(s, i, c.(active := name)), i, Frame(OK, Ascii("switched ") + name));
  }

  lemma LeaveMoves(s: State, i: nat, name: Bytes)
    requires Live(s, i)
    ensures Moves(s, LeaveNamed(s, i, name)) && SameBooks(s, LeaveNamed(s, i, name))
  {
    var c := s.clients[i];
    var channel := FindChannel(s.channels, name);
    if !(0 <= channel < |c.joined| && c.joined[channel]) {
      DeliverMoves(s, i, Frame(ERROR, Ascii("not in channel")));
    } else {
      var d := c.(joined := c.joined[channel := false], active := if c.active == name then [] else c.active);
      AnswerMoves(s, Update(s, i, d), i, Frame(OK, Ascii("left channel")));
    }
  }

  lemma MembershipMoves(s: State, i: nat, f: Frame)
    requires Live(s, i) && AboutChannels(f.kind)
    ensures Moves(s, HandleFrame(s, i, f)) && SameBooks(s, HandleFrame(s, i, f))
  {
    HandlerOf(s, i, f);
    if !s.clients[i].registered && f.kind != LEAVE {
      DeliverMoves(s, i, Frame(ERROR, Ascii("send HELLO first")));
    } else {
      match ReadName(f.payload, CHANNEL_CAP)
      case None => DeliverMoves(s, i, Frame(ERROR, Ascii("invalid channel")));
      case Some(name) =>
        if f.kind == JOIN { JoinMoves(s, i, name); }
        else if f.kind == SWITCH { SwitchMoves(s, i, name); }
        else { LeaveMoves(s, i, name); }
    }
  }

  lemma WhoMoves(s: State, i: nat)
    requires Live(s, i)
    ensures Moves(s, SendWho(s, i)) && SameBooks(s, SendWho(s, i))
  {
    var channel := FindChannel(s.channels, s.clients[i].active);
    if channel < 0 {
      DeliverMoves(s, i, Frame(ERROR, Ascii("join a channel before listing participants")));
    } else {
      match Lines(Members(s.clients, channel), MAX_PAYLOAD)
      case None => DeliverMoves(s, i, Frame(ERROR, Ascii("WHO response too large")));
      case Some(text) => DeliverMoves(s, i, Frame(WHO_RESP, text));
    }
  }

  lemma ListMoves(s: State, i: nat)
    requires Live(s, i)
    ensures Moves(s, SendList(s, i)) && SameBooks(s, SendList(s, i))
  {
    match Lines(s.channels, MAX_PAYLOAD)
    case None => DeliverMoves(s, i, Frame(ERROR, Ascii("LIST response too large")));
    case Some(text) => DeliverMoves(s, i, Frame(LIST_RESP, text));
  }

  lemma StatsMoves(s: State, i: nat)
    requires Live(s, i)
    ensures Moves(s, SendStats(s, i)) && SameBooks(s, SendStats(s, i))
  {
    var text := StatsText(s.stats, CountRegistered(s.clients), |s.channels|, s.maxQueue);
    if |text| >= MAX_PAYLOAD {
      DeliverMoves(s, i, Frame(ERROR, Ascii("stats response too large")));
    } else {
      DeliverMoves(s, i, Frame(STATS_RESP, text));
    }
  }

  /** SAY: a text of a client with an active channel is the next line of the log. */
  lemma SayMoves(s: State, i: nat, payload: Bytes)
    requires CoreDelivery.Sound(s) && Live(s, i)
    ensures var c, r := s.clients[i], HandleSay(s, i, payload);
            && Moves(s, r) && r.stats.directMessages == s.stats.directMessages
            && r.log == s.log + if c.registered && c.active != [] && ReadText(payload).Some?
                                then [Chat(c.active, c.username, ReadText(payload).value)] else []
  {
    var c := s.clients[i];
    if !c.registered {
      DeliverMoves(s, i, Frame(ERROR, Ascii("send HELLO first")));
    } else if c.active == [] {
      DeliverMoves(s, i, Frame(ERROR, Ascii("join a channel before sending")));
    } else if ReadText(payload).None? {
      DeliverMoves(s, i, Frame(ERROR, Ascii("invalid message")));
    } else {
      CoreLaws.SayReachesItsChannel(s, i, payload);
      var text := ReadText(payload).value;
      var f := Frame(CHAT, Written([c.active, c.username, text], MAX_PAYLOAD).value);
      FanoutMoves(s, |s.clients|, FindChannel(s.channels, c.active), -1, f);
    }
  }

  lemma RelayMoves(s: State, i: nat, k: nat, f: Frame)
    requires Live(s, i) && Live(s, k)
    ensures var r := Relay(s, i, k, f);
            && Moves(s, r) && r.log == s.log
            && r.stats.directMessages == s.stats.directMessages + if Enqueue(s, k, f).ok then 1 else 0
  {
    var e := Enqueue(s, k, f);
    DeliverMoves(s, k, f);
    if e.ok {
      SlotMoves(s, k, CountDirect(e.state));
      DeliverMoves(CountDirect(e.state), i, Frame(OK, Ascii("direct message sent")));
      MovesOn(s, CountDirect(e.state), Relay(s, i, k, f));
    }
  }

  /** DM: the message is counted exactly when its target has room for it. */
  lemma DmMoves(s: State, i: nat, payload: Bytes)
    requires CoreDelivery.Sound(s) && Live(s, i)
    ensures var dm, r := ReadDirect(payload), HandleDm(s, i, payload);
            && Moves(s, r) && r.log == s.log
            && r.stats.directMessages == s.stats.directMessages + if Counts(s, i, payload) then 1 else 0
  {
    DeliverMoves(s, i, Frame(ERROR, Ascii("send HELLO first")));
    DeliverMoves(s, i, Frame(ERROR, Ascii("invalid direct message")));
    DeliverMoves(s, i, Frame(ERROR, Ascii("user not found")));
    if s.clients[i].registered && ReadDirect(payload).Some? {
      var dm := ReadDirect(payload).value;
      var k := FindUser(s.clients, dm.target);
      if k >= 0 {
        CoreLaws.DirectMessageOutcome(s, i, payload);
        var f := Frame(DM_RECV, Written([s.clients[i].username, dm.text], MAX_PAYLOAD).value);
        CoreInvariant.EnqueueExactly(s, k, f);
        RelayMoves(s, i, k, f);
      }
    }
  }

  /** A DM of a registered client to a registered name whose queue and allocation hold. */
  predicate Counts(s: State, i: nat, payload: Bytes)
    requires i < |s.clients|
  {
    && s.clients[i].registered && ReadDirect(payload).Some?
    && var dm := ReadDirect(payload).value;
    var k := FindUser(s.clients, dm.target);
    && k >= 0
    && var written := Written([s.clients[i].username, dm.text], MAX_PAYLOAD);
    written.Some? && CoreInvariant.Takes(s, k, Frame(DM_RECV, written.value))
  }

  lemma OtherMoves(s: State, i: nat, f: Frame)
    requires Live(s, i) && !AboutChannels(f.kind)
    requires f.kind != HELLO && f.kind != NICK && f.kind != SAY && f.kind != DM
    ensures Moves(s, HandleFrame(s, i, f)) && SameBooks(s, HandleFrame(s, i, f))
  {
    HandlerOf(s, i, f);
    if f.kind == WHO { WhoMoves(s, i); }
    else if f.kind == LIST { ListMoves(s, i); }
    else if f.kind == STATS { StatsMoves(s, i); }
    else if f.kind == QUIT { ResetMoves(s, i, ClientQuit); }
    else { DeliverMoves(s, i, Frame(ERROR, Ascii("unknown message type"))); }
  }

  /** Whatever frame is handled, but for a first name, every connection goes on or is among
      those closed, and the books change for SAY and DM only. */
  lemma FrameMoves(s: State, i: nat, f: Frame)
    requires CoreDelivery.Sound(s) && Live(s, i) && (s.clients[i].registered || f.kind !in [HELLO, NICK])
    ensures Moves(s, HandleFrame(s, i, f))
    ensures f.kind != SAY && f.kind != DM ==> SameBooks(s, HandleFrame(s, i, f))
  {
    HandlerOf(s, i, f);
    if f.kind == HELLO { HelloMoves(s, i, f.payload); }
    else if f.kind == NICK { NickMoves(s, i, f.payload); }
    else if f.kind == SAY { SayMoves(s, i, f.payload); }
    else if f.kind == DM { DmMoves(s, i, f.payload); }
    else if AboutChannels(f.kind) { MembershipMoves(s, i, f); }
    else { OtherMoves(s, i, f); }
  }
}
