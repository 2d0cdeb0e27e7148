/** The replies of the core, text by text: every command that is not a broadcast, a relayed
    message, a rename or QUIT queues exactly one frame to its own client, which is dropped
    when there is no room or memory for it, and touches nobody else. */
module CoreReplies {
  import opened Bytes
  import opened Wire
  import opened Core
  import opened CoreInvariant
  import opened CoreSessions
  import opened CoreOutcomes
  import opened CoreText
  import CoreCommands
  import CoreDelivery
  import CoreLaws

  // ---------------------------------------------------------------- one reply

  /** The connection goes on with one more frame queued, perhaps under another session. */
  predicate Replies(c: Conn, d: Conn, g: Frame) {
    && |g.payload| <= 4096
    && d.queue == c.queue + [Queued(EncodeFrame(g), 0)]
    && d.fd == c.fd && d.inbuf == c.inbuf && SameInput(c, d)
    && d.history.accepted == c.history.accepted + [g]
  }

  predicate SameInput(c: Conn, d: Conn) {
    && d.history.serial == c.history.serial && d.history.received == c.history.received
    && d.history.dispatched == c.history.dispatched && d.history.sent == c.history.sent
  }

  /** One connection more has been closed for overflow: this one, with what it had accepted. */
  predicate OneDropped(c: Conn, before: seq<Closed>, after: seq<Closed>) {
    && |after| == |before| + 1 && before <= after
    && after[|before|].reason == Overflow
    && after[|before|].history.serial == c.history.serial && after[|before|].history.accepted == c.history.accepted
  }

  /** Client i is sent g, or dropped if there is no room or memory for it, and nobody else
      is touched. */
  ghost predicate Replied(s: State, i: nat, g: Frame, r: State)
    requires i < |s.clients|
  {
    && |r.clients| == |s.clients|
    && (forall j :: 0 <= j < |s.clients| && j != i ==> r.clients[j] == s.clients[j])
    && (if Takes(s, i, g) then Replies(s.clients[i], r.clients[i], g) && r.closed == s.closed
        else r.clients[i] == Blank() && OneDropped(s.clients[i], s.closed, r.closed))
    && r.allocations == s.allocations + (if Room(s.maxQueue, s.clients[i].queue, g) then 1 else 0)
    && r.log == s.log && r.stats.directMessages == s.stats.directMessages
    && r.maxQueue == s.maxQueue && r.calloc == s.calloc
  }

  /** The same connection, perhaps under another session. */
  predicate OtherSession(c: Conn, d: Conn) {
    && d.queue == c.queue && d.queuedBytes == c.queuedBytes && d.fd == c.fd && d.inbuf == c.inbuf
    && SameInput(c, d) && d.history.accepted == c.history.accepted
  }

  /** t: the state when the reply is queued, in which only client i's session, or the table
      of channels, has changed. */
  ghost predicate Prepared(s: State, i: nat, t: State)
    requires i < |s.clients|
  {
    && |t.clients| == |s.clients| && t.clients == s.clients[i := t.clients[i]]
    && OtherSession(s.clients[i], t.clients[i])
    && t.closed == s.closed && t.log == s.log && t.stats.directMessages == s.stats.directMessages
    && t.allocations == s.allocations && t.maxQueue == s.maxQueue && t.calloc == s.calloc
  }

  lemma SlotPrepares(s: State, i: nat, c: Conn)
    requires i < |s.clients| && OtherSession(s.clients[i], c)
    ensures Prepared(s, i, Update(s, i, c))
  {
  }

  lemma DeliverReplies(s: State, i: nat, t: State, g: Frame)
    requires Good(s) && Live(s, i) && Prepared(s, i, t)
    ensures Replied(s, i, g, Deliver(t, i, g))
  {
    assert QueueOk(s.maxQueue, s.clients[i]);
    assert Enqueue(t, i, g).ok <==> Takes(s, i, g);
  }

  lemma SayReplies(s: State, i: nat, t: State, kind: byte, text: string)
    requires Good(s) && Live(s, i) && Prepared(s, i, t)
    ensures Replied(s, i, Frame(kind, Ascii(text)), Say(t, i, kind, text))
  {
    DeliverReplies(s, i, t, Frame(kind, Ascii(text)));
  }

  // ---------------------------------------------------------------- which reply

  function Fault(text: string): Frame {
    Frame(ERROR, Ascii(text))
  }

  function Done(text: string, name: Bytes): Frame {
    Frame(OK, Ascii(text) + name)
  }

  /** The reply to a command about sessions, from the machine of core_sessions.dfy. */
  function SessionReply(table: set<Bytes>, taken: set<Bytes>, w: Who, f: Frame): Frame {
    var ok := Granted(table, taken, w, f);
    var user, channel := ReadName(f.payload, NAME_CAP), ReadName(f.payload, CHANNEL_CAP);
    if f.kind == HELLO then
      if ok then Done("registered", []) else Fault(if user.None? then "invalid username" else "username already in use")
    else if f.kind == NICK then
      if ok then Done("username changed", [])
      else Fault(if user.None? then "invalid username" else "username already in use")
    else if !w.registered && f.kind != LEAVE then Fault("send HELLO first")
    else if channel.None? then Fault("invalid channel")
    else if f.kind == JOIN then
      if ok then Done("joined ", channel.value) else Fault("too many channels")
    else if f.kind == SWITCH then
      if ok then Done("switched ", channel.value) else Fault("join channel before switching")
    else
      if ok then Done("left channel", []) else Fault("not in channel")
  }

  lemma Plain(text: string)
    ensures Done(text, []) == Frame(OK, Ascii(text))
  {
    assert Ascii(text) + [] == Ascii(text);
  }

  /** The reply to client i. */
  function ReplyTo(s: State, i: nat, f: Frame): Frame
    requires i < |s.clients|
  {
    SessionReply(Table(s.channels), Taken(s, i), View(s.channels, s.clients[i]), f)
  }

  lemma RenamedReplies(s: State, i: nat, name: Bytes)
    requires Good(s) && Live(s, i)
    ensures Replied(s, i, Done("registered", []), Say(Update(s, i, Rename(s.clients[i], name)), i, OK, "registered"))
  {
    Plain("registered");
    SlotPrepares(s, i, Rename(s.clients[i], name));
    SayReplies(s, i, Update(s, i, Rename(s.clients[i], name)), OK, "registered");
  }

  lemma HelloReplies(s: State, i: nat, f: Frame)
    requires Good(s) && Live(s, i) && f.kind == HELLO
    ensures Replied(s, i, ReplyTo(s, i, f), HandleHello(s, i, f.payload))
  {
    match ReadName(f.payload, NAME_CAP)
    case None => SayReplies(s, i, s, ERROR, "invalid username");
    case Some(name) =>
      TakenIsInUse(s, i, name);
      if InUse(s, name, i) {
        SayReplies(s, i, s, ERROR, "username already in use");
      } else {
        RenamedReplies(s, i, name);
      }
  }

  lemma RefusedNickReplies(s: State, i: nat, f: Frame)
    requires Good(s) && Live(s, i) && f.kind == NICK
    requires !Granted(Table(s.channels), Taken(s, i), View(s.channels, s.clients[i]), f)
    ensures Replied(s, i, ReplyTo(s, i, f), HandleNick(s, i, f.payload))
  {
    match ReadName(f.payload, NAME_CAP)
    case None => SayReplies(s, i, s, ERROR, "invalid username");
    case Some(name) =>
      TakenIsInUse(s, i, name);
      SayReplies(s, i, s, ERROR, "username already in use");
  }

  /** The state in which the reply to a granted JOIN is queued. */
  function Joining(s: State, i: nat, name: Bytes): State
    requires i < |s.clients|
  {
    var found := FindChannel(s.channels, name);
    var t := if found < 0 then s.(channels := s.channels + [name]) else s;
    Update(t, i, Enter(t, t.clients[i], if found < 0 then |s.channels| else found).(active := name))
  }

  lemma JoiningPrepares(s: State, i: nat, name: Bytes)
    requires i < |s.clients|
    ensures Prepared(s, i, Joining(s, i, name))
  {
  }

  lemma EnterReplies(s: State, i: nat, f: Frame, name: Bytes)
    requires Good(s) && Live(s, i) && s.clients[i].registered
    requires f.kind == JOIN && ReadName(f.payload, CHANNEL_CAP) == Some(name)
    ensures Replied(s, i, ReplyTo(s, i, f), EnterNamed(s, i, name))
  {
    FoundIsInTable(s, s.clients[i], name);
    TableSize(s.channels);
    if FindChannel(s.channels, name) < 0 && |s.channels| >= MAX_CHANNELS {
      SayReplies(s, i, s, ERROR, "too many channels");
    } else {
      JoiningPrepares(s, i, name);
      DeliverReplies(s, i, Joining(s, i, name), Done("joined ", name));
    }
  }

  lemma JoinReplies(s: State, i: nat, f: Frame)
    requires Good(s) && Live(s, i) && f.kind == JOIN
    ensures Replied(s, i, ReplyTo(s, i, f), JoinChannel(s, i, f.payload))
  {
    if !s.clients[i].registered {
      SayReplies(s, i, s, ERROR, "send HELLO first");
    } else {
      match ReadName(f.payload, CHANNEL_CAP)
      case None => SayReplies(s, i, s, ERROR, "invalid channel");
      case Some(name) => EnterReplies(s, i, f, name);
    }
  }

  lemma SwitchedReplies(s: State, i: nat, name: Bytes)
    requires Good(s) && Live(s, i)
    ensures Replied(s, i, Done("switched ", name),
                    Deliver(Update(s, i, s.clients[i].(active := name)), i, Done("switched ", name)))
  {
    SlotPrepares(s, i, s.clients[i].(active := name));
    DeliverReplies(s, i, Update(s, i, s.clients[i].(active := name)), Done("switched ", name));
  }

  lemma SwitchNamedReplies(s: State, i: nat, name: Bytes)
    requires Good(s) && Live(s, i)
    ensures Replied(s, i, if name in JoinedSet(s.channels, s.clients[i].joined) then Done("switched ", name)
                          else Fault("join channel before switching"), SwitchNamed(s, i, name))
  {
    FoundIsInTable(s, s.clients[i], name);
    if name in JoinedSet(s.channels, s.clients[i].joined) {
      SwitchedReplies(s, i, name);
    } else {
      SayReplies(s, i, s, ERROR, "join channel before switching");
    }
  }

  lemma SwitchReplies(s: State, i: nat, f: Frame)
    requires Good(s) && Live(s, i) && f.kind == SWITCH
    ensures Replied(s, i, ReplyTo(s, i, f), SwitchChannel(s, i, f.payload))
  {
    if !s.clients[i].registered {
      SayReplies(s, i, s, ERROR, "send HELLO first");
    } else {
      match ReadName(f.payload, CHANNEL_CAP)
      case None => SayReplies(s, i, s, ERROR, "invalid channel");
      case Some(name) => SwitchNamedReplies(s, i, name);
    }
  }

  /** The client after leaving the channel in slot k of the table. */
  function Left(c: Conn, k: nat, name: Bytes): Conn
    requires k < |c.joined|
  {
    c.(joined := c.joined[k := false], active := if c.active == name then [] else c.active)
  }

  lemma LeftReplies(s: State, i: nat, k: nat, name: Bytes)
    requires Good(s) && Live(s, i) && k < |s.clients[i].joined|
    ensures Replied(s, i, Done("left channel", []),
                    Say(Update(s, i, Left(s.clients[i], k, name)), i, OK, "left channel"))
  {
    Plain("left channel");
    SlotPrepares(s, i, Left(s.clients[i], k, name));
    SayReplies(s, i, Update(s, i, Left(s.clients[i], k, name)), OK, "left channel");
  }

  lemma LeaveNamedReplies(s: State, i: nat, name: Bytes)
    requires Good(s) && Live(s, i)
    ensures Replied(s, i, if name in JoinedSet(s.channels, s.clients[i].joined) then Done("left channel", [])
                          else Fault("not in channel"), LeaveNamed(s, i, name))
  {
    FoundIsInTable(s, s.clients[i], name);
    if name in JoinedSet(s.channels, s.clients[i].joined) {
      LeftReplies(s, i, FindChannel(s.channels, name), name);
    } else {
      SayReplies(s, i, s, ERROR, "not in channel");
    }
  }

  lemma LeaveReplies(s: State, i: nat, f: Frame)
    requires Good(s) && Live(s, i) && f.kind == LEAVE
    ensures Replied(s, i, ReplyTo(s, i, f), LeaveChannel(s, i, f.payload))
  {
    match ReadName(f.payload, CHANNEL_CAP)
    case None => SayReplies(s, i, s, ERROR, "invalid channel");
    case Some(name) =>
      assert LeaveChannel(s, i, f.payload) == LeaveNamed(s, i, name);
      LeaveNamedReplies(s, i, name);
  }

  /** Whenever HELLO, JOIN, SWITCH, LEAVE or a refused NICK is handled, the client is sent
      exactly that reply, and nobody else is touched. */
  lemma SessionReplies(s: State, i: nat, f: Frame)
    requires Good(s) && Live(s, i) && AboutSessions(f)
    requires f.kind == NICK ==> !Granted(Table(s.channels), Taken(s, i), View(s.channels, s.clients[i]), f)
    ensures Replied(s, i, ReplyTo(s, i, f), HandleFrame(s, i, f))
  {
    HandlerOf(s, i, f);
    if f.kind == HELLO { HelloReplies(s, i, f); }
    else if f.kind == NICK { RefusedNickReplies(s, i, f); }
    else if f.kind == JOIN { JoinReplies(s, i, f); }
    else if f.kind == SWITCH { SwitchReplies(s, i, f); }
    else { LeaveReplies(s, i, f); }
  }

  // ---------------------------------------------------------------- WHO and LIST

  /** The names of the registered clients that have joined the channel, among the first n
      slots, in slot order. */
  function Roster(s: State, channel: Bytes, n: nat): seq<Bytes> {
    if n == 0 then []
    else
      Roster(s, channel, n - 1)
      + if n - 1 in Audience(s, channel) then [s.clients[n - 1].username] else []
  }

  lemma {:induction false} RosterIsAudience(s: State, channel: Bytes, n: nat, x: Bytes)
    requires n <= |s.clients|
    ensures x in Roster(s, channel, n) <==>
      exists j :: 0 <= j < n && s.clients[j].fd >= 0 && s.clients[j].registered && s.clients[j].username == x
                  && channel in JoinedSet(s.channels, s.clients[j].joined)
  {
    if n > 0 { RosterIsAudience(s, channel, n - 1, x); }
  }

  lemma {:induction false} MembersAreTheRoster(s: State, name: Bytes, n: nat)
    requires Good(s) && FindChannel(s.channels, name) >= 0 && n <= |s.clients|
    ensures Members(s.clients[..n], FindChannel(s.channels, name)) == Roster(s, name, n)
  {
    if n > 0 {
      MembersAreTheRoster(s, name, n - 1);
      AudienceIsTargets(s, name);
      assert s.clients[..n][..n - 1] == s.clients[..n - 1];
      assert IsMember(s.clients[n - 1], FindChannel(s.channels, name)) <==> n - 1 in Audience(s, name) by {
        assert n - 1 in Targets(s, FindChannel(s.channels, name), -1) <==>
               IsMember(s.clients[n - 1], FindChannel(s.channels, name));
      }
    }
  }

  lemma {:induction false} RosterIsNamed(s: State, channel: Bytes, n: nat)
    requires Good(s) && n <= |s.clients|
    ensures forall k :: 0 <= k < |Roster(s, channel, n)| ==> NameOk(Roster(s, channel, n)[k], 1, NAME_CAP)
  {
    if n > 0 { RosterIsNamed(s, channel, n - 1); }
  }

  function WhoReply(s: State, i: nat): Frame
    requires i < |s.clients|
  {
    var names := Roster(s, s.clients[i].active, |s.clients|);
    if s.clients[i].active == [] then Fault("join a channel before listing participants")
    else if |JoinLines(names)| > 4095 then Fault("WHO response too large")
    else Frame(WHO_RESP, JoinLines(names))
  }

  /** WHO is answered with the names on the asker's own active channel, whenever they fit. */
  lemma WhoReplies(s: State, i: nat)
    requires Good(s) && Live(s, i)
    ensures Replied(s, i, WhoReply(s, i), SendWho(s, i))
  {
    var active := s.clients[i].active;
    CoreCommands.NoEmptyChannel(s.channels);
    if active == [] {
      SayReplies(s, i, s, ERROR, "join a channel before listing participants");
    } else {
      CoreLaws.ActiveIsJoined(s, i);
      assert s.clients[..|s.clients|] == s.clients;
      MembersAreTheRoster(s, active, |s.clients|);
      RosterIsNamed(s, active, |s.clients|);
      NamesAreOneLiners(Roster(s, active, |s.clients|), NAME_CAP);
      LinesExactly(Roster(s, active, |s.clients|), MAX_PAYLOAD);
      if |JoinLines(Roster(s, active, |s.clients|))| > 4095 {
        SayReplies(s, i, s, ERROR, "WHO response too large");
      } else {
        DeliverReplies(s, i, s, WhoReply(s, i));
      }
    }
  }

  /** A client on a channel that asks WHO and is not dropped is sent a text whose lines are
      the names of the registered clients on that channel, each once, in slot order. */
  lemma WhoListsTheAudience(s: State, i: nat)
    requires Good(s) && Live(s, i) && s.clients[i].active != []
    requires Live(HandleFrame(s, i, Frame(WHO, [])), i)
    requires |JoinLines(Roster(s, s.clients[i].active, 128))| <= 4095
    ensures var c, r := s.clients[i], HandleFrame(s, i, Frame(WHO, []));
      var n := |c.history.accepted|;
      && |r.clients[i].history.accepted| == n + 1
      && r.clients[i].history.accepted[n].kind == WHO_RESP
      && SplitLines(r.clients[i].history.accepted[n].payload) == Roster(s, c.active, 128)
      && c.username in Roster(s, c.active, 128)
  {
    HandlerOf(s, i, Frame(WHO, []));
    WhoReplies(s, i);
    var active := s.clients[i].active;
    RosterIsNamed(s, active, |s.clients|);
    NamesAreOneLiners(Roster(s, active, |s.clients|), NAME_CAP);
    SplitInvertsJoin(Roster(s, active, |s.clients|));
    CoreLaws.ActiveIsJoined(s, i);
    FoundIsInTable(s, s.clients[i], active);
    RosterIsAudience(s, active, |s.clients|, s.clients[i].username);
  }

  /** LIST is answered with the table of channels, and its text always fits. */
  lemma ListReplies(s: State, i: nat)
    requires Good(s) && Live(s, i)
    ensures Replied(s, i, Frame(LIST_RESP, JoinLines(s.channels)), SendList(s, i))
    ensures SplitLines(JoinLines(s.channels)) == s.channels
  {
    ListAlwaysFits(s);
    NamesAreOneLiners(s.channels, CHANNEL_CAP);
    LinesExactly(s.channels, MAX_PAYLOAD);
    SplitInvertsJoin(s.channels);
    DeliverReplies(s, i, s, Frame(LIST_RESP, JoinLines(s.channels)));
  }

  // ---------------------------------------------------------------- the other commands

  function StatsReply(s: State): Frame {
    var text := StatsText(s.stats, CountRegistered(s.clients), |s.channels|, s.maxQueue);
    if |text| < 4096 then Frame(STATS_RESP, text) else Fault("stats response too large")
  }

  predicate Online(s: State, name: Bytes) {
    exists j :: 0 <= j < |s.clients| && s.clients[j].fd >= 0 && s.clients[j].registered && s.clients[j].username == name
  }

  /** A SAY that is not broadcast: from nobody, from nowhere, or without a text. */
  predicate RefusedSay(c: Conn, payload: Bytes) {
    !c.registered || c.active == [] || ReadText(payload).None?
  }

  /** A DM that is not relayed: from nobody, malformed or to nobody. */
  predicate RefusedDm(s: State, i: nat, payload: Bytes)
    requires i < |s.clients|
  {
    !s.clients[i].registered || ReadDirect(payload).None? || !Online(s, ReadDirect(payload).value.target)
  }

  function SayReply(c: Conn): Frame {
    if !c.registered then Fault("send HELLO first")
    else if c.active == [] then Fault("join a channel before sending")
    else Fault("invalid message")
  }

  function DmReply(c: Conn, payload: Bytes): Frame {
    if !c.registered then Fault("send HELLO first")
    else if ReadDirect(payload).None? then Fault("invalid direct message")
    else Fault("user not found")
  }

  /** The commands that are answered by one frame and touch nobody else. */
  predicate OneAnswer(s: State, i: nat, f: Frame)
    requires i < |s.clients|
  {
    && f.kind != QUIT
    && (f.kind == NICK ==> !Granted(Table(s.channels), Taken(s, i), View(s.channels, s.clients[i]), f))
    && (f.kind == SAY ==> RefusedSay(s.clients[i], f.payload))
    && (f.kind == DM ==> RefusedDm(s, i, f.payload))
  }

  function Answer(s: State, i: nat, f: Frame): Frame
    requires i < |s.clients|
  {
    if AboutSessions(f) then ReplyTo(s, i, f)
    else if f.kind == SAY then SayReply(s.clients[i])
    else if f.kind == DM then DmReply(s.clients[i], f.payload)
    else if f.kind == WHO then WhoReply(s, i)
    else if f.kind == LIST then Frame(LIST_RESP, JoinLines(s.channels))
    else if f.kind == STATS then StatsReply(s)
    else Fault("unknown message type")
  }

  lemma SayRefused(s: State, i: nat, payload: Bytes)
    requires Good(s) && Live(s, i) && RefusedSay(s.clients[i], payload)
    ensures Replied(s, i, SayReply(s.clients[i]), HandleSay(s, i, payload))
  {
    SayReplies(s, i, s, ERROR, "send HELLO first");
    SayReplies(s, i, s, ERROR, "join a channel before sending");
    SayReplies(s, i, s, ERROR, "invalid message");
  }

  lemma DmRefused(s: State, i: nat, payload: Bytes)
    requires Good(s) && Live(s, i) && RefusedDm(s, i, payload)
    ensures Replied(s, i, DmReply(s.clients[i], payload), HandleDm(s, i, payload))
  {
    SayReplies(s, i, s, ERROR, "send HELLO first");
    SayReplies(s, i, s, ERROR, "invalid direct message");
    SayReplies(s, i, s, ERROR, "user not found");
  }

  lemma StatsReplies(s: State, i: nat)
    requires Good(s) && Live(s, i)
    ensures Replied(s, i, StatsReply(s), SendStats(s, i))
  {
    assert SendStats(s, i) == Deliver(s, i, StatsReply(s));
    DeliverReplies(s, i, s, StatsReply(s));
  }

  /** Every such command, whenever it is handled, sends its own client exactly this frame, or
      drops it when there is no room or memory for it, and touches nobody else. */
  lemma EveryReply(s: State, i: nat, f: Frame)
    requires Good(s) && Live(s, i) && OneAnswer(s, i, f)
    ensures Replied(s, i, Answer(s, i, f), HandleFrame(s, i, f))
  {
    HandlerOf(s, i, f);
    if AboutSessions(f) { SessionReplies(s, i, f); }
    else if f.kind == SAY { SayRefused(s, i, f.payload); }
    else if f.kind == DM { DmRefused(s, i, f.payload); }
    else if f.kind == WHO { WhoReplies(s, i); }
    else if f.kind == LIST { ListReplies(s, i); }
    else if f.kind == STATS { StatsReplies(s, i); }
    else { SayReplies(s, i, s, ERROR, "unknown message type"); }
  }

  /** QUIT closes the connection at the client's wish, with nothing sent to it any more, and
      touches nobody else. */
  lemma QuitCloses(s: State, i: nat, f: Frame)
    requires Good(s) && Live(s, i) && f.kind == QUIT
    ensures var r := HandleFrame(s, i, f);
      && |r.clients| == |s.clients| && r.clients[i] == Blank()
      && (forall j :: 0 <= j < |s.clients| && j != i ==> r.clients[j] == s.clients[j])
      && r.closed == s.closed + [Closed(s.clients[i].history, ClientQuit)]
      && r.allocations == s.allocations && r.log == s.log && r.channels == s.channels
  {
    HandlerOf(s, i, f);
  }

  // ---------------------------------------------------------------- NICK

  /** The client under its new name, with the reply queued. */
  function Named(c: Conn, name: Bytes): Conn {
    var g := Done("username changed", []);
    c.(username := name, registered := true,
       queue := c.queue + [Queued(EncodeFrame(g), 0)], queuedBytes := c.queuedBytes + 5 + |g.payload|,
       history := c.history.(accepted := c.history.accepted + [g]))
  }

  /** The line the others on the channel are sent. */
  function NameChange(oldName: Bytes, name: Bytes): Bytes {
    if oldName == [] then Ascii("anonymous is now ") + name else oldName + Ascii(" is now ") + name
  }

  lemma NoticeReads(oldName: Bytes, name: Bytes)
    ensures Notice(oldName, name) == NameChange(oldName, name)
  {
    assert Ascii("anonymous") + Ascii(" is now ") == Ascii("anonymous is now ");
  }

  lemma OthersAreTargets(s: State, name: Bytes, i: nat)
    requires Good(s) && FindChannel(s.channels, name) >= 0
    ensures Targets(s, FindChannel(s.channels, name), i) == Audience(s, name) - {i}
  {
    AudienceIsTargets(s, name);
    assert Targets(s, FindChannel(s.channels, name), i) == Targets(s, FindChannel(s.channels, name), -1) - {i};
  }

  /** A granted NICK: the client gets its reply under the new name or is dropped, and then
      everybody else on its active channel, and nobody outside it, is told who is who now. */
  lemma NickOutcome(s: State, i: nat, f: Frame)
    requires CoreDelivery.Sound(s) && Live(s, i) && f.kind == NICK
    requires Granted(Table(s.channels), Taken(s, i), View(s.channels, s.clients[i]), f)
    ensures var c, name, g := s.clients[i], ReadName(f.payload, NAME_CAP).value, Done("username changed", []);
      var r := HandleFrame(s, i, f);
      if !Takes(s, i, g) then Replied(s, i, g, r)
      else
        var t := s.(clients := s.clients[i := Named(c, name)], allocations := s.allocations + 1);
        if c.active == [] then r == t
        else Fanned(t, r, Audience(t, c.active) - {i}, 128, Frame(SYSTEM, NameChange(c.username, name)))
  {
    var c, name, g := s.clients[i], ReadName(f.payload, NAME_CAP).value, Done("username changed", []);
    HandlerOf(s, i, f);
    TakenIsInUse(s, i, name);
    NoticeReads(c.username, name);
    NickNamedOutcome(s, i, name);
  }

  lemma RenamedOutcome(s: State, i: nat, name: Bytes)
    requires CoreDelivery.Sound(s) && Live(s, i) && NameOk(name, 1, NAME_CAP) && !InUse(s, name, i)
    ensures var g := Done("username changed", []);
      var t := Say(Update(s, i, Rename(s.clients[i], name)), i, OK, "username changed");
      CoreDelivery.Sound(t) && Replied(s, i, g, t)
  {
    Plain("username changed");
    SlotPrepares(s, i, Rename(s.clients[i], name));
    SayReplies(s, i, Update(s, i, Rename(s.clients[i], name)), OK, "username changed");
    CoreCommands.RenameKeeps(s.channels, s.maxQueue, s.log, s.clients[i], name);
    CoreCommands.ChangeAndAnswer(s, i, Rename(s.clients[i], name), Frame(OK, Ascii("username changed")));
  }

  lemma TakenIsNamed(s: State, i: nat, name: Bytes)
    requires Good(s) && Live(s, i) && Takes(s, i, Done("username changed", []))
    ensures Say(Update(s, i, Rename(s.clients[i], name)), i, OK, "username changed") ==
            s.(clients := s.clients[i := Named(s.clients[i], name)], allocations := s.allocations + 1)
  {
    Plain("username changed");
    EnqueueExactly(s, i, Done("username changed", []));
  }

  lemma NickNamedOutcome(s: State, i: nat, name: Bytes)
    requires CoreDelivery.Sound(s) && Live(s, i) && NameOk(name, 1, NAME_CAP) && !InUse(s, name, i)
    ensures var c, g, r := s.clients[i], Done("username changed", []), NickNamed(s, i, name);
      if !Takes(s, i, g) then Replied(s, i, g, r)
      else
        var t := s.(clients := s.clients[i := Named(c, name)], allocations := s.allocations + 1);
        if c.active == [] then r == t
        else Fanned(t, r, Audience(t, c.active) - {i}, 128, Frame(SYSTEM, Notice(c.username, name)))
  {
    var c := s.clients[i];
    var t := Say(Update(s, i, Rename(c, name)), i, OK, "username changed");
    RenamedOutcome(s, i, name);
    CoreCommands.AnnounceSound(t, i, Notice(c.username, name));
    if Takes(s, i, Done("username changed", [])) {
      TakenIsNamed(s, i, name);
      CoreCommands.NoEmptyChannel(t.channels);
      if c.active != [] {
        CoreLaws.ActiveIsJoined(t, i);
        OthersAreTargets(t, c.active, i);
        FanoutExactly(t, |t.clients|, FindChannel(t.channels, c.active), i, Frame(SYSTEM, Notice(c.username, name)));
      }
    }
  }

  // ---------------------------------------------------------------- when a membership begins

  function SinceOf(c: Conn, k: nat): Option<Mark> {
    if k < |c.history.since| then Some(c.history.since[k]) else None
  }

  /** A granted JOIN of a channel the client is not on begins its membership now: with the
      frames accepted and the broadcasts made so far. Of one it is on it changes nothing, and
      no other membership either. */
  lemma JoinBegins(s: State, i: nat, f: Frame)
    requires Good(s) && Live(s, i) && f.kind == JOIN
    requires Granted(Table(s.channels), Taken(s, i), View(s.channels, s.clients[i]), f)
    requires Live(HandleFrame(s, i, f), i)
    ensures var name, r := ReadName(f.payload, CHANNEL_CAP).value, HandleFrame(s, i, f);
      Begun(s, i, name, r.channels, r.clients[i])
  {
    var name := ReadName(f.payload, CHANNEL_CAP).value;
    HandlerOf(s, i, f);
    TableSize(s.channels);
    FoundIsInTable(s, s.clients[i], name);
    EnteredIsJoining(s, i, name);
    JoiningBegins(s, i, name);
    DeliverLeaves(Joining(s, i, name), i, Done("joined ", name));
  }

  predicate Begun(s: State, i: nat, name: Bytes, channels: seq<Bytes>, d: Conn)
    requires i < |s.clients|
  {
    var c, k := s.clients[i], FindChannel(channels, name);
    && 0 <= k && |d.history.since| == |c.history.since|
    && SinceOf(d, k) == (if name in JoinedSet(s.channels, c.joined) then SinceOf(c, k)
                         else Some(Mark(|c.history.accepted|, |s.log|)))
    && forall j :: 0 <= j < |c.history.since| && j != k ==> d.history.since[j] == c.history.since[j]
  }

  lemma EnterBegins(s: State, c: Conn, k: nat)
    requires |c.joined| == |c.history.since| && k < |c.joined|
    ensures var d := Enter(s, c, k);
      && |d.history.since| == |c.history.since|
      && d.history.since[k] == (if c.joined[k] then c.history.since[k] else Mark(|c.history.accepted|, |s.log|))
      && forall j :: 0 <= j < |c.history.since| && j != k ==> d.history.since[j] == c.history.since[j]
  {
  }

  lemma JoiningBegins(s: State, i: nat, name: Bytes)
    requires Good(s) && Live(s, i) && (FindChannel(s.channels, name) >= 0 || |s.channels| < MAX_CHANNELS)
    ensures Begun(s, i, name, Joining(s, i, name).channels, Joining(s, i, name).clients[i])
  {
    var c, found := s.clients[i], FindChannel(s.channels, name);
    FoundIsInTable(s, c, name);
    if found < 0 {
      CoreCommands.FindChannelGrows(s.channels, name, name);
      EnterBegins(s.(channels := s.channels + [name]), c, |s.channels|);
    } else {
      EnterBegins(s, c, found);
    }
  }

  lemma EnteredIsJoining(s: State, i: nat, name: Bytes)
    requires i < |s.clients| && (FindChannel(s.channels, name) >= 0 || |s.channels| < MAX_CHANNELS)
    ensures EnterNamed(s, i, name) == Deliver(Joining(s, i, name), i, Done("joined ", name))
  {
  }

  predicate SameSince(s: State, i: nat, r: State) {
    Live(s, i) && Live(r, i) ==> r.clients[i].history.since == s.clients[i].history.since
  }

  lemma AnswerKeepsSince(s: State, i: nat, c: Conn, g: Frame)
    requires Live(s, i) && c.history.since == s.clients[i].history.since
    ensures SameSince(s, i, Deliver(Update(s, i, c), i, g)) && SameSince(s, i, Deliver(s, i, g))
  {
    DeliverLeaves(Update(s, i, c), i, g);
    DeliverLeaves(s, i, g);
  }

  lemma FaultKeepsSince(s: State, i: nat, text: string)
    requires Live(s, i)
    ensures SameSince(s, i, Say(s, i, ERROR, text))
  {
    AnswerKeepsSince(s, i, s.clients[i], Frame(ERROR, Ascii(text)));
  }

  lemma HelloKeepsSince(s: State, i: nat, payload: Bytes)
    requires Live(s, i)
    ensures SameSince(s, i, HandleHello(s, i, payload))
  {
    FaultKeepsSince(s, i, "invalid username");
    FaultKeepsSince(s, i, "username already in use");
    if ReadName(payload, NAME_CAP).Some? {
      AnswerKeepsSince(s, i, Rename(s.clients[i], ReadName(payload, NAME_CAP).value), Frame(OK, Ascii("registered")));
    }
  }

  lemma SwitchKeepsSince(s: State, i: nat, payload: Bytes)
    requires Live(s, i)
    ensures SameSince(s, i, SwitchChannel(s, i, payload))
  {
    FaultKeepsSince(s, i, "send HELLO first");
    FaultKeepsSince(s, i, "invalid channel");
    FaultKeepsSince(s, i, "join channel before switching");
    if ReadName(payload, CHANNEL_CAP).Some? {
      var name := ReadName(payload, CHANNEL_CAP).value;
      AnswerKeepsSince(s, i, s.clients[i].(active := name), Frame(OK, Ascii("switched ") + name));
    }
  }

  lemma LeaveKeepsSince(s: State, i: nat, payload: Bytes)
    requires Live(s, i)
    ensures SameSince(s, i, LeaveChannel(s, i, payload))
  {
    FaultKeepsSince(s, i, "invalid channel");
    FaultKeepsSince(s, i, "not in channel");
    if ReadName(payload, CHANNEL_CAP).Some? {
      var name := ReadName(payload, CHANNEL_CAP).value;
      var k := FindChannel(s.channels, name);
      if 0 <= k < |s.clients[i].joined| {
        AnswerKeepsSince(s, i, Left(s.clients[i], k, name), Frame(OK, Ascii("left channel")));
      }
    }
  }

  lemma NickKeepsSince(s: State, i: nat, payload: Bytes, j: nat)
    requires Live(s, i)
    ensures SameSince(s, j, HandleNick(s, i, payload))
  {
    TextLeaves(s, i, ERROR, "invalid username");
    TextLeaves(s, i, ERROR, "username already in use");
    if ReadName(payload, NAME_CAP).Some? {
      var name := ReadName(payload, NAME_CAP).value;
      var t := Update(s, i, Rename(s.clients[i], name));
      var u := Say(t, i, OK, "username changed");
      TextLeaves(t, i, OK, "username changed");
      AnnounceLeaves(u, i, Notice(s.clients[i].username, name));
      LeavesTrans(t, u, NickNamed(s, i, name));
    }
  }

  /** No other command, and nobody else's, begins a membership or moves its beginning. */
  lemma OnlyJoinBegins(s: State, i: nat, f: Frame, j: nat)
    requires Good(s) && Live(s, i) && Live(s, j) && (f.kind != JOIN || j != i)
    ensures SameSince(s, j, HandleFrame(s, i, f))
  {
    HandlerOf(s, i, f);
    if f.kind == NICK { NickKeepsSince(s, i, f.payload, j); }
    else if !AboutSessions(f) { OtherCommandLeaves(s, i, f); }
    else if j != i { SessionReplies(s, i, f); }
    else if f.kind == HELLO { HelloKeepsSince(s, i, f.payload); }
    else if f.kind == SWITCH { SwitchKeepsSince(s, i, f.payload); }
    else { LeaveKeepsSince(s, i, f.payload); }
  }
}
