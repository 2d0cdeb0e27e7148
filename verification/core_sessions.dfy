/** What commands mean, without slots, indices and queues: a session is a name, a set of
    channels and one active channel among them. Every command of the core changes the
    session of its own client as that simple machine does, and nobody else's. */
module CoreSessions {
  import opened Bytes
  import opened Wire
  import opened Core
  import opened CoreInvariant
  import opened CoreRun

  datatype Who = Who(registered: bool, name: Bytes, active: Bytes, channels: set<Bytes>)

  /** Whether a command to register, rename, join, switch or leave is granted: table holds
      the channels that exist, taken the names of the other registered clients. */
  predicate Granted(table: set<Bytes>, taken: set<Bytes>, w: Who, f: Frame) {
    if f.kind == HELLO || f.kind == NICK then
      ReadName(f.payload, NAME_CAP).Some? && ReadName(f.payload, NAME_CAP).value !in taken
    else
      && ReadName(f.payload, CHANNEL_CAP).Some?
      && var name := ReadName(f.payload, CHANNEL_CAP).value;
      if f.kind == JOIN then w.registered && (name in table || |table| < MAX_CHANNELS)
      else (f.kind == SWITCH || f.kind == LEAVE) && name in w.channels
  }

  /** The session afterwards. */
  function After(table: set<Bytes>, taken: set<Bytes>, w: Who, f: Frame): Who {
    if !Granted(table, taken, w, f) then w
    else if f.kind == HELLO || f.kind == NICK then w.(registered := true, name := ReadName(f.payload, NAME_CAP).value)
    else
      var name := ReadName(f.payload, CHANNEL_CAP).value;
      if f.kind == JOIN then w.(channels := w.channels + {name}, active := name)
      else if f.kind == SWITCH then w.(active := name)
      else w.(channels := w.channels - {name}, active := if w.active == name then [] else w.active)
  }

  /** The channels that exist afterwards. */
  function TableAfter(table: set<Bytes>, taken: set<Bytes>, w: Who, f: Frame): set<Bytes> {
    if f.kind == JOIN && Granted(table, taken, w, f) then table + {ReadName(f.payload, CHANNEL_CAP).value} else table
  }

  // ---------------------------------------------------------------- the view

  function Table(channels: seq<Bytes>): set<Bytes> {
    set k | 0 <= k < |channels| :: channels[k]
  }

  function JoinedSet(channels: seq<Bytes>, joined: seq<bool>): set<Bytes> {
    set k | 0 <= k < |channels| && k < |joined| && joined[k] :: channels[k]
  }

  function View(channels: seq<Bytes>, c: Conn): Who {
    Who(c.registered, c.username, c.active, JoinedSet(channels, c.joined))
  }

  function Taken(s: State, i: nat): set<Bytes> {
    set j | 0 <= j < |s.clients| && j != i && s.clients[j].fd >= 0 && s.clients[j].registered :: s.clients[j].username
  }

  lemma {:induction false} TableSize(channels: seq<Bytes>)
    requires forall j, k :: 0 <= j < k < |channels| ==> channels[j] != channels[k]
    ensures |Table(channels)| == |channels|
  {
    if channels != [] {
      var front := channels[..|channels| - 1];
      TableSize(front);
      assert Table(channels) == Table(front) + {channels[|channels| - 1]};
    }
  }

  lemma JoinedAt(channels: seq<Bytes>, joined: seq<bool>, k: nat, flag: bool)
    requires k < |channels| <= |joined|
    requires forall j, l :: 0 <= j < l < |channels| ==> channels[j] != channels[l]
    ensures var before, after := JoinedSet(channels, joined), JoinedSet(channels, joined[k := flag]);
            && (channels[k] in before <==> joined[k])
            && after == if flag then before + {channels[k]} else before - {channels[k]}
  {
    var before, after := JoinedSet(channels, joined), JoinedSet(channels, joined[k := flag]);
    forall name | name in before && name != channels[k] ensures name in after {
      var j :| 0 <= j < |channels| && joined[j] && channels[j] == name;
      assert joined[k := flag][j];
    }
  }

  lemma JoinedGrows(channels: seq<Bytes>, joined: seq<bool>, name: Bytes)
    requires forall k :: 0 <= k < |joined| && joined[k] ==> k < |channels|
    ensures JoinedSet(channels + [name], joined) == JoinedSet(channels, joined)
    ensures Table(channels + [name]) == Table(channels) + {name}
  {
    var more := channels + [name];
    forall x | x in JoinedSet(channels, joined) ensures x in JoinedSet(more, joined) {
      var k :| 0 <= k < |channels| && k < |joined| && joined[k] && channels[k] == x;
      assert more[k] == x;
    }
    forall x | x in Table(channels) ensures x in Table(more) {
      var k :| 0 <= k < |channels| && channels[k] == x;
      assert more[k] == x;
    }
    assert more[|channels|] == name;
  }

  /** find_channel finds exactly the channels that exist, and the joined flag there says
      whether the client is on the channel. */
  lemma FoundIsInTable(s: State, c: Conn, name: Bytes)
    requires TableOk(s.channels) && SessionOk(s.channels, c)
    ensures var k := FindChannel(s.channels, name);
            && (k >= 0 <==> name in Table(s.channels))
            && (name in JoinedSet(s.channels, c.joined) <==> k >= 0 && c.joined[k])
  {
    var k := FindChannel(s.channels, name);
    if k >= 0 { JoinedAt(s.channels, c.joined, k, true); }
  }

  // ---------------------------------------------------------------- what leaves sessions alone

  predicate SameSession(c: Conn, d: Conn) {
    && d.registered == c.registered && d.username == c.username && d.active == c.active && d.joined == c.joined
    && d.history.since == c.history.since
  }

  /** The clients still connected have the sessions they had, and the table is the same. */
  predicate Leaves(s: State, r: State) {
    && |r.clients| == |s.clients| && r.channels == s.channels
    && forall j :: 0 <= j < |s.clients| && r.clients[j].fd >= 0 ==>
         s.clients[j].fd >= 0 && SameSession(s.clients[j], r.clients[j])
  }

  lemma DeliverLeaves(s: State, i: nat, f: Frame)
    requires i < |s.clients|
    ensures Leaves(s, Deliver(s, i, f))
  {
  }

  lemma LeavesTrans(s: State, t: State, r: State)
    requires Leaves(s, t) && Leaves(t, r)
    ensures Leaves(s, r)
  {
    forall j | 0 <= j < |s.clients| && r.clients[j].fd >= 0
      ensures s.clients[j].fd >= 0 && SameSession(s.clients[j], r.clients[j])
    {
      assert SameSession(t.clients[j], r.clients[j]);
    }
  }

  lemma RoundLeaves(s: State, j: nat, channel: int, except: int, f: Frame)
    requires j < |s.clients|
    ensures Leaves(s, Round(s, j, channel, except, f))
  {
    DeliverLeaves(s, j, f);
  }

  lemma {:induction false} LeavesSoFar(s: State, n: nat, channel: int, except: int, f: Frame, r: State)
    requires n <= |s.clients| && r == Fanout(s, n, channel, except, f)
    ensures Leaves(s, r)
  {
    if n > 0 {
      var t := Fanout(s, n - 1, channel, except, f);
      LeavesSoFar(s, n - 1, channel, except, f, t);
      RoundLeaves(t, n - 1, channel, except, f);
      LeavesTrans(s, t, r);
    }
  }

  lemma FanoutLeaves(s: State, n: nat, channel: int, except: int, f: Frame)
    requires n <= |s.clients|
    ensures Leaves(s, Fanout(s, n, channel, except, f))
  {
    LeavesSoFar(s, n, channel, except, f, Fanout(s, n, channel, except, f));
  }

  lemma RelayLeaves(s: State, i: nat, target: nat, f: Frame)
    requires i < |s.clients| && target < |s.clients|
    ensures Leaves(s, Relay(s, i, target, f))
  {
    var e := Enqueue(s, target, f);
    if e.ok {
      assert Leaves(s, CountDirect(e.state));
      DeliverLeaves(CountDirect(e.state), i, Frame(OK, Ascii("direct message sent")));
    }
  }

  lemma TextLeaves(s: State, i: nat, kind: byte, text: string)
    requires i < |s.clients|
    ensures Leaves(s, Say(s, i, kind, text))
  {
    DeliverLeaves(s, i, Frame(kind, Ascii(text)));
  }

  lemma DmLeaves(s: State, i: nat, payload: Bytes)
    requires i < |s.clients|
    ensures Leaves(s, HandleDm(s, i, payload))
  {
    if !s.clients[i].registered {
      TextLeaves(s, i, ERROR, "send HELLO first");
    } else {
      match ReadDirect(payload)
      case None => TextLeaves(s, i, ERROR, "invalid direct message");
      case Some(dm) =>
        var target := FindUser(s.clients, dm.target);
        if target < 0 {
          TextLeaves(s, i, ERROR, "user not found");
        } else {
          match Written([s.clients[i].username, dm.text], MAX_PAYLOAD)
          case None =>
          case Some(p) => RelayLeaves(s, i, target, Frame(DM_RECV, p));
        }
    }
  }

  lemma BroadcastLeaves(s: State, i: nat, text: Bytes)
    requires i < |s.clients|
    ensures Leaves(s, Broadcast(s, i, text))
  {
    var c := s.clients[i];
    var channel := FindChannel(s.channels, c.active);
    if channel < 0 {
      TextLeaves(s, i, ERROR, "join a channel before sending");
    } else {
      match Written([c.active, c.username, text], MAX_PAYLOAD)
      case None => TextLeaves(s, i, ERROR, "message payload too large");
      case Some(p) => FanoutLeaves(s, |s.clients|, channel, -1, Frame(CHAT, p));
    }
  }

  lemma SayLeaves(s: State, i: nat, payload: Bytes)
    requires i < |s.clients|
    ensures Leaves(s, HandleSay(s, i, payload))
  {
    if !s.clients[i].registered {
      TextLeaves(s, i, ERROR, "send HELLO first");
    } else if s.clients[i].active == [] {
      TextLeaves(s, i, ERROR, "join a channel before sending");
    } else {
      match ReadText(payload)
      case None => TextLeaves(s, i, ERROR, "invalid message");
      case Some(text) => BroadcastLeaves(s, i, text);
    }
  }

  lemma WhoLeaves(s: State, i: nat)
    requires i < |s.clients|
    ensures Leaves(s, SendWho(s, i))
  {
    var channel := FindChannel(s.channels, s.clients[i].active);
    if channel < 0 {
      TextLeaves(s, i, ERROR, "join a channel before listing participants");
    } else {
      match Lines(Members(s.clients, channel), MAX_PAYLOAD)
      case None => TextLeaves(s, i, ERROR, "WHO response too large");
      case Some(text) => DeliverLeaves(s, i, Frame(WHO_RESP, text));
    }
  }

  lemma ListLeaves(s: State, i: nat)
    requires i < |s.clients|
    ensures Leaves(s, SendList(s, i))
  {
    match Lines(s.channels, MAX_PAYLOAD)
    case None => TextLeaves(s, i, ERROR, "LIST response too large");
    case Some(text) => DeliverLeaves(s, i, Frame(LIST_RESP, text));
  }

  lemma StatsLeaves(s: State, i: nat)
    requires i < |s.clients|
    ensures Leaves(s, SendStats(s, i))
  {
    var text := StatsText(s.stats, CountRegistered(s.clients), |s.channels|, s.maxQueue);
    if |text| >= MAX_PAYLOAD {
      TextLeaves(s, i, ERROR, "stats response too large");
    } else {
      DeliverLeaves(s, i, Frame(STATS_RESP, text));
    }
  }

  /** The commands that are not about sessions. */
  lemma OtherCommandLeaves(s: State, i: nat, f: Frame)
    requires i < |s.clients| && !AboutSessions(f)
    ensures Leaves(s, HandleFrame(s, i, f))
  {
    if f.kind == SAY { SayLeaves(s, i, f.payload); }
    else if f.kind == DM { DmLeaves(s, i, f.payload); }
    else if f.kind == WHO { WhoLeaves(s, i); }
    else if f.kind == LIST { ListLeaves(s, i); }
    else if f.kind == QUIT { }
    else if f.kind == STATS { StatsLeaves(s, i); }
    else { TextLeaves(s, i, ERROR, "unknown message type"); }
  }

  predicate AboutSessions(f: Frame) {
    f.kind == HELLO || f.kind == NICK || f.kind == JOIN || f.kind == SWITCH || f.kind == LEAVE
  }

  // ---------------------------------------------------------------- the commands about sessions

  /** Whoever is still there after the reply is in the session of t, and the reply is the
      first frame queued to client i. */
  predicate Answered(t: State, i: nat, kind: byte, r: State) {
    && Leaves(t, r)
    && (Live(r, i) ==>
          var n := |t.clients[i].history.accepted|;
          n < |r.clients[i].history.accepted| && r.clients[i].history.accepted[n].kind == kind)
  }

  lemma DeliverAnswers(t: State, i: nat, reply: Frame)
    requires Live(t, i)
    ensures Answered(t, i, reply.kind, Deliver(t, i, reply))
  {
    DeliverLeaves(t, i, reply);
  }

  lemma TextAnswers(t: State, i: nat, kind: byte, text: string)
    requires Live(t, i)
    ensures Answered(t, i, kind, Say(t, i, kind, text))
  {
    DeliverAnswers(t, i, Frame(kind, Ascii(text)));
  }

  /** What the simple machine says of one command and its outcome. */
  predicate Obeys(s: State, i: nat, f: Frame, r: State)
    requires i < |s.clients|
  {
    var table, taken, w := Table(s.channels), Taken(s, i), View(s.channels, s.clients[i]);
    && |r.clients| == |s.clients|
    && Table(r.channels) == TableAfter(table, taken, w, f)
    && (Live(r, i) ==>
          && View(r.channels, r.clients[i]) == After(table, taken, w, f)
          && (AboutSessions(f) ==>
                var n := |s.clients[i].history.accepted|;
                && n < |r.clients[i].history.accepted|
                && r.clients[i].history.accepted[n].kind == if Granted(table, taken, w, f) then OK else ERROR))
    && (forall j :: 0 <= j < |s.clients| && j != i && r.clients[j].fd >= 0 ==>
          s.clients[j].fd >= 0 && View(r.channels, r.clients[j]) == View(s.channels, s.clients[j]))
  }

  /** t: the state when the reply is queued, in which only client i's session has changed. */
  lemma AnsweredObeys(s: State, i: nat, f: Frame, t: State, r: State)
    requires Good(s) && Live(s, i) && AboutSessions(f)
    requires |t.clients| == |s.clients| && forall j :: 0 <= j < |s.clients| && j != i ==> t.clients[j] == s.clients[j]
    requires t.clients[i].history.accepted == s.clients[i].history.accepted
    requires var table, taken, w := Table(s.channels), Taken(s, i), View(s.channels, s.clients[i]);
             && View(t.channels, t.clients[i]) == After(table, taken, w, f)
             && Table(t.channels) == TableAfter(table, taken, w, f)
             && Answered(t, i, if Granted(table, taken, w, f) then OK else ERROR, r)
    requires t.channels == s.channels || exists name :: t.channels == s.channels + [name]
    ensures Obeys(s, i, f, r)
  {
    forall j | 0 <= j < |s.clients| && j != i && r.clients[j].fd >= 0
      ensures s.clients[j].fd >= 0 && View(r.channels, r.clients[j]) == View(s.channels, s.clients[j])
    {
      assert SameSession(t.clients[j], r.clients[j]);
      if t.channels != s.channels {
        var name :| t.channels == s.channels + [name];
        JoinedGrows(s.channels, s.clients[j].joined, name);
      }
    }
    if Live(r, i) { assert SameSession(t.clients[i], r.clients[i]); }
  }

  lemma TakenIsInUse(s: State, i: nat, name: Bytes)
    ensures InUse(s, name, i) <==> name in Taken(s, i)
  {
  }

  /** Nothing is granted: an error, and nothing changes. */
  lemma RefusalObeys(s: State, i: nat, f: Frame, text: string)
    requires Good(s) && Live(s, i) && AboutSessions(f)
    requires !Granted(Table(s.channels), Taken(s, i), View(s.channels, s.clients[i]), f)
    ensures Obeys(s, i, f, Say(s, i, ERROR, text))
  {
    TextAnswers(s, i, ERROR, text);
    AnsweredObeys(s, i, f, s, Say(s, i, ERROR, text));
  }

  lemma HelloObeys(s: State, i: nat, f: Frame)
    requires Good(s) && Live(s, i) && f.kind == HELLO
    ensures Obeys(s, i, f, HandleHello(s, i, f.payload))
  {
    match ReadName(f.payload, NAME_CAP)
    case None => RefusalObeys(s, i, f, "invalid username");
    case Some(name) =>
      TakenIsInUse(s, i, name);
      if InUse(s, name, i) {
        RefusalObeys(s, i, f, "username already in use");
      } else {
        var t := Update(s, i, Rename(s.clients[i], name));
        TextAnswers(t, i, OK, "registered");
        AnsweredObeys(s, i, f, t, Say(t, i, OK, "registered"));
      }
  }

  lemma {:induction false} FanoutSkips(s: State, n: nat, channel: int, except: nat, f: Frame)
    requires n <= |s.clients| && except < |s.clients|
    ensures Fanout(s, n, channel, except, f).clients[except] == s.clients[except]
  {
    if n > 0 { FanoutSkips(s, n - 1, channel, except, f); }
  }

  lemma AnnounceLeaves(s: State, i: nat, text: Bytes)
    requires i < |s.clients|
    ensures Leaves(s, Announce(s, i, text))
  {
    var channel := FindChannel(s.channels, s.clients[i].active);
    if channel >= 0 { FanoutLeaves(s, |s.clients|, channel, i, Frame(SYSTEM, text)); }
  }

  lemma AnnounceAnswers(t: State, i: nat, kind: byte, u: State, text: Bytes)
    requires i < |t.clients| && Answered(t, i, kind, u)
    ensures Answered(t, i, kind, Announce(u, i, text))
  {
    AnnounceLeaves(u, i, text);
    LeavesTrans(t, u, Announce(u, i, text));
    var channel := FindChannel(u.channels, u.clients[i].active);
    if channel >= 0 { FanoutSkips(u, |u.clients|, channel, i, Frame(SYSTEM, text)); }
  }

  lemma NickObeys(s: State, i: nat, f: Frame)
    requires Good(s) && Live(s, i) && f.kind == NICK
    ensures Obeys(s, i, f, HandleNick(s, i, f.payload))
  {
    match ReadName(f.payload, NAME_CAP)
    case None => RefusalObeys(s, i, f, "invalid username");
    case Some(name) =>
      TakenIsInUse(s, i, name);
      if InUse(s, name, i) {
        RefusalObeys(s, i, f, "username already in use");
      } else {
        var t := Update(s, i, Rename(s.clients[i], name));
        var u := Say(t, i, OK, "username changed");
        TextAnswers(t, i, OK, "username changed");
        AnnounceAnswers(t, i, OK, u, Notice(s.clients[i].username, name));
        AnsweredObeys(s, i, f, t, NickNamed(s, i, name));
      }
  }

  lemma EnteredView(s: State, i: nat, name: Bytes)
    requires Good(s) && Live(s, i)
    requires FindChannel(s.channels, name) >= 0 || |s.channels| < MAX_CHANNELS
    ensures var found := FindChannel(s.channels, name);
            var t := if found < 0 then s.(channels := s.channels + [name]) else s;
            var k := if found < 0 then |s.channels| else found;
            var c := Enter(t, t.clients[i], k).(active := name);
            && JoinedSet(t.channels, c.joined) == JoinedSet(s.channels, s.clients[i].joined) + {name}
            && Table(t.channels) == Table(s.channels) + {name}
  {
    var found := FindChannel(s.channels, name);
    var joined := s.clients[i].joined;
    if found < 0 {
      JoinedGrows(s.channels, joined, name);
      JoinedAt(s.channels + [name], joined, |s.channels|, true);
    } else {
      JoinedAt(s.channels, joined, found, true);
    }
  }

  /** The session when the reply to a JOIN is queued. */
  function Entered(s: State, i: nat, name: Bytes): State
    requires i < |s.clients|
  {
    var found := FindChannel(s.channels, name);
    var t := if found < 0 then s.(channels := s.channels + [name]) else s;
    Update(t, i, Enter(t, t.clients[i], if found < 0 then |s.channels| else found).(active := name))
  }

  lemma EnteredAfter(s: State, i: nat, f: Frame, name: Bytes)
    requires Good(s) && Live(s, i) && s.clients[i].registered
    requires f.kind == JOIN && ReadName(f.payload, CHANNEL_CAP) == Some(name)
    requires FindChannel(s.channels, name) >= 0 || |s.channels| < MAX_CHANNELS
    ensures var table, taken, w := Table(s.channels), Taken(s, i), View(s.channels, s.clients[i]);
            && Granted(table, taken, w, f)
            && View(Entered(s, i, name).channels, Entered(s, i, name).clients[i]) == After(table, taken, w, f)
            && Table(Entered(s, i, name).channels) == TableAfter(table, taken, w, f)
  {
    FoundIsInTable(s, s.clients[i], name);
    TableSize(s.channels);
    EnteredView(s, i, name);
  }

  lemma EnterGranted(s: State, i: nat, f: Frame, name: Bytes)
    requires Good(s) && Live(s, i) && s.clients[i].registered
    requires f.kind == JOIN && ReadName(f.payload, CHANNEL_CAP) == Some(name)
    requires FindChannel(s.channels, name) >= 0 || |s.channels| < MAX_CHANNELS
    ensures Obeys(s, i, f, Deliver(Entered(s, i, name), i, Frame(OK, Ascii("joined ") + name)))
  {
    EnteredAfter(s, i, f, name);
    var u, reply := Entered(s, i, name), Frame(OK, Ascii("joined ") + name);
    DeliverAnswers(u, i, reply);
    AnsweredObeys(s, i, f, u, Deliver(u, i, reply));
  }

  lemma EnterObeys(s: State, i: nat, f: Frame, name: Bytes)
    requires Good(s) && Live(s, i) && s.clients[i].registered
    requires f.kind == JOIN && ReadName(f.payload, CHANNEL_CAP) == Some(name)
    ensures Obeys(s, i, f, EnterNamed(s, i, name))
  {
    if FindChannel(s.channels, name) < 0 && |s.channels| >= MAX_CHANNELS {
      FoundIsInTable(s, s.clients[i], name);
      TableSize(s.channels);
      RefusalObeys(s, i, f, "too many channels");
    } else {
      EnterGranted(s, i, f, name);
    }
  }

  lemma JoinObeys(s: State, i: nat, f: Frame)
    requires Good(s) && Live(s, i) && f.kind == JOIN
    ensures Obeys(s, i, f, JoinChannel(s, i, f.payload))
  {
    if !s.clients[i].registered {
      RefusalObeys(s, i, f, "send HELLO first");
    } else {
      match ReadName(f.payload, CHANNEL_CAP)
      case None => RefusalObeys(s, i, f, "invalid channel");
      case Some(name) => EnterObeys(s, i, f, name);
    }
  }

  lemma SwitchObeys(s: State, i: nat, f: Frame)
    requires Good(s) && Live(s, i) && f.kind == SWITCH
    ensures Obeys(s, i, f, SwitchChannel(s, i, f.payload))
  {
    var c := s.clients[i];
    if !c.registered {
      RefusalObeys(s, i, f, "send HELLO first");
    } else {
      match ReadName(f.payload, CHANNEL_CAP)
      case None => RefusalObeys(s, i, f, "invalid channel");
      case Some(name) =>
        FoundIsInTable(s, c, name);
        var k := FindChannel(s.channels, name);
        if !(0 <= k < |c.joined| && c.joined[k]) {
          RefusalObeys(s, i, f, "join channel before switching");
        } else {
          var t := Update(s, i, c.(active := name));
          DeliverAnswers(t, i, Frame(OK, Ascii("switched ") + name));
          AnsweredObeys(s, i, f, t, SwitchNamed(s, i, name));
        }
    }
  }

  lemma LeaveObeys(s: State, i: nat, f: Frame)
    requires Good(s) && Live(s, i) && f.kind == LEAVE
    ensures Obeys(s, i, f, LeaveChannel(s, i, f.payload))
  {
    var c := s.clients[i];
    match ReadName(f.payload, CHANNEL_CAP)
    case None => RefusalObeys(s, i, f, "invalid channel");
    case Some(name) =>
      FoundIsInTable(s, c, name);
      var k := FindChannel(s.channels, name);
      if !(0 <= k < |c.joined| && c.joined[k]) {
        RefusalObeys(s, i, f, "not in channel");
      } else {
        JoinedAt(s.channels, c.joined, k, false);
        var t := Update(s, i, c.(joined := c.joined[k := false], active := if c.active == name then [] else c.active));
        TextAnswers(t, i, OK, "left channel");
        AnsweredObeys(s, i, f, t, LeaveNamed(s, i, name));
      }
  }

  // ---------------------------------------------------------------- the law

  lemma OtherObeys(s: State, i: nat, f: Frame)
    requires Good(s) && Live(s, i) && !AboutSessions(f)
    ensures Obeys(s, i, f, HandleFrame(s, i, f))
  {
    OtherCommandLeaves(s, i, f);
    var r := HandleFrame(s, i, f);
    forall j | 0 <= j < |s.clients| && r.clients[j].fd >= 0
      ensures s.clients[j].fd >= 0 && View(r.channels, r.clients[j]) == View(s.channels, s.clients[j])
    {
      assert SameSession(s.clients[j], r.clients[j]);
    }
  }

  /** Whenever a frame is handled, each command changes the session of its own client, the
      table of channels and the reply exactly as the simple machine says, and no other
      session, whoever is dropped on the way. */
  lemma CommandsObeyTheSimpleMachine(s: State, i: nat, f: Frame)
    requires CoreDelivery.Sound(s) && Live(s, i)
    ensures Obeys(s, i, f, HandleFrame(s, i, f))
  {
    HandlerOf(s, i, f);
    if f.kind == HELLO { HelloObeys(s, i, f); }
    else if f.kind == NICK { NickObeys(s, i, f); }
    else if f.kind == JOIN { JoinObeys(s, i, f); }
    else if f.kind == SWITCH { SwitchObeys(s, i, f); }
    else if f.kind == LEAVE { LeaveObeys(s, i, f); }
    else { OtherObeys(s, i, f); }
  }
}
