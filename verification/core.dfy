/** The messaging core (core/src/server.c) as functions on values: one function for each
    routine that changes the server's state. The class in server.dfy is proved to do
    exactly this in place. What the operating system decides (calloc, accept, recv, send,
    poll) is an argument, so a statement about all arguments is about all its answers. */
module Core {
  import opened Bytes
  import opened Wire

  const MAX_CLIENTS: nat := 128
  const MAX_CHANNELS: nat := 64
  const NAME_CAP: nat := 32
  const CHANNEL_CAP: nat := 32
  const TEXT_CAP: nat := 1024
  const INBUF_CAP: nat := HEADER_SIZE + MAX_PAYLOAD

  const HELLO: byte := 1
  const JOIN: byte := 2
  const SWITCH: byte := 3
  const LEAVE: byte := 4
  const SAY: byte := 5
  const DM: byte := 6
  const WHO: byte := 7
  const LIST: byte := 8
  const NICK: byte := 9
  const QUIT: byte := 10
  const STATS: byte := 11

  const OK: byte := 101
  const ERROR: byte := 102
  const CHAT: byte := 103
  const DM_RECV: byte := 104
  const SYSTEM: byte := 105
  const WHO_RESP: byte := 106
  const LIST_RESP: byte := 107
  const STATS_RESP: byte := 108

  // -------------------------------------------------------------------- state

  /** A queued frame and how many of its bytes send has taken. */
  datatype Queued = Queued(data: Bytes, sent: nat)

  /** Where a membership began: how many frames the connection had been queued by then,
      and how many broadcasts there had been. */
  datatype Mark = Mark(acceptedAt: nat, loggedAt: nat)

  /** What has happened on one connection. The program does not store this. */
  datatype History = History(
    serial: nat,              // how many connections had been accepted before it
    received: Bytes,          // all bytes recv delivered
    dispatched: seq<Frame>,   // frames given to handle_frame
    accepted: seq<Frame>,     // frames enqueue_payload accepted
    sent: Bytes,              // all bytes send took
    since: seq<Mark>)         // per channel, when the joined flag last went up

  /** One slot of the client table. */
  datatype Conn = Conn(
    fd: int, registered: bool, username: Bytes, active: Bytes, joined: seq<bool>,
    inbuf: Bytes, queue: seq<Queued>, queuedBytes: int, history: History)

  datatype Reason = Overflow | ClientQuit | PeerClosed | BufferFull | RecvFailed | SendFailed | PollError

  datatype Closed = Closed(history: History, reason: Reason)

  datatype Chat = Chat(channel: Bytes, sender: Bytes, text: Bytes)

  datatype Stats = Stats(
    current: nat, total: nat, channelMessages: nat, directMessages: nat,
    malformed: nat, queueDisconnects: nat)

  datatype State = State(
    clients: seq<Conn>, channels: seq<Bytes>, maxQueue: nat, stats: Stats,
    calloc: nat -> bool,      // does the n-th allocation succeed?
    allocations: nat,         // allocations tried so far
    log: seq<Chat>,           // all broadcasts, in order
    closed: seq<Closed>)      // all connections closed, in order

  function NoHistory(): History {
    History(0, [], [], [], [], seq(MAX_CHANNELS, _ => Mark(0, 0)))
  }

  /** memset(c, 0, sizeof *c) with fd = -1. */
  function Blank(): Conn {
    Conn(-1, false, [], [], seq(MAX_CHANNELS, _ => false), [], [], 0, NoHistory())
  }

  function Initial(maxQueue: nat, calloc: nat -> bool): State {
    State(seq(MAX_CLIENTS, _ => Blank()), [], maxQueue, Stats(0, 0, 0, 0, 0, 0), calloc, 0, [], [])
  }

  predicate Live(s: State, i: nat) {
    i < |s.clients| && s.clients[i].fd >= 0
  }

  function Update(s: State, i: nat, c: Conn): State
    requires i < |s.clients|
  {
    s.(clients := s.clients[i := c])
  }

  // ------------------------------------------------------- closing and queueing

  /** reset_client, as disconnect_client calls it. */
  function Reset(s: State, i: nat, why: Reason): State
    requires i < |s.clients|
  {
    var c := s.clients[i];
    var t := Update(s, i, Blank());
    if c.fd < 0 then t
    else t.(
      stats := if s.stats.current > 0 then s.stats.(current := s.stats.current - 1) else s.stats,
      closed := s.closed + [Closed(c.history, why)])
  }

  datatype Outcome = Outcome(state: State, ok: bool)

  predicate HasRoom(s: State, c: Conn, size: nat) {
    size <= MAX_PAYLOAD && c.queuedBytes + HEADER_SIZE + size <= s.maxQueue
  }

  function Push(c: Conn, f: Frame): Conn
    requires |f.payload| <= MAX_PAYLOAD
  {
    c.(queue := c.queue + [Queued(EncodeFrame(f), 0)],
       queuedBytes := c.queuedBytes + HEADER_SIZE + |f.payload|,
       history := c.history.(accepted := c.history.accepted + [f]))
  }

  /** enqueue_payload. */
  function Enqueue(s: State, i: nat, f: Frame): Outcome
    requires i < |s.clients|
  {
    if !HasRoom(s, s.clients[i], |f.payload|) then Outcome(s, false)
    else
      var t := s.(allocations := s.allocations + 1);
      if !s.calloc(s.allocations) then Outcome(t, false)
      else Outcome(Update(t, i, Push(s.clients[i], f)), true)
  }

  /** stats.queue_disconnects++ and disconnect_client. */
  function Overflowed(s: State, i: nat): State
    requires i < |s.clients|
  {
    Reset(s.(stats := s.stats.(queueDisconnects := s.stats.queueDisconnects + 1)), i, Overflow)
  }

  /** Queue a frame or drop the client: safe_enqueue_text, and the body of the broadcasts. */
  function Deliver(s: State, i: nat, f: Frame): State
    requires i < |s.clients|
  {
    var e := Enqueue(s, i, f);
    if e.ok then e.state else Overflowed(e.state, i)
  }

  function Say(s: State, i: nat, kind: byte, text: string): State
    requires i < |s.clients|
  {
    Deliver(s, i, Frame(kind, Ascii(text)))
  }

  // ------------------------------------------------------------------ look-ups

  /** username_in_use. */
  predicate InUse(s: State, name: Bytes, except: nat) {
    exists j :: 0 <= j < |s.clients| && j != except && s.clients[j].fd >= 0 && s.clients[j].registered
             && s.clients[j].username == name
  }

  /** find_channel: the first index with that name, or -1. */
  function FindChannel(channels: seq<Bytes>, name: Bytes): (r: int)
    ensures -1 <= r < |channels|
    ensures r >= 0 ==> channels[r] == name
    ensures forall k :: 0 <= k < (if r < 0 then |channels| else r) ==> channels[k] != name
  {
    if channels == [] then -1
    else if channels[|channels| - 1] == name && FindChannel(channels[..|channels| - 1], name) < 0 then |channels| - 1
    else FindChannel(channels[..|channels| - 1], name)
  }

  /** find_client_by_fd. */
  function FindFd(clients: seq<Conn>, fd: int): (r: int)
    ensures -1 <= r < |clients|
    ensures r >= 0 ==> clients[r].fd == fd
    ensures forall k :: 0 <= k < (if r < 0 then |clients| else r) ==> clients[k].fd != fd
  {
    if clients == [] then -1
    else
      var r := FindFd(clients[..|clients| - 1], fd);
      if r < 0 && clients[|clients| - 1].fd == fd then |clients| - 1 else r
  }

  predicate Registered(c: Conn) {
    c.fd >= 0 && c.registered
  }

  /** The first registered client of that name, or -1. */
  function FindUser(clients: seq<Conn>, name: Bytes): (r: int)
    ensures -1 <= r < |clients|
    ensures r >= 0 ==> Registered(clients[r]) && clients[r].username == name
    ensures forall k :: 0 <= k < (if r < 0 then |clients| else r) ==>
              !(Registered(clients[k]) && clients[k].username == name)
  {
    if clients == [] then -1
    else
      var r := FindUser(clients[..|clients| - 1], name);
      var c := clients[|clients| - 1];
      if r < 0 && Registered(c) && c.username == name then |clients| - 1 else r
  }

  /** The first free slot, or -1. */
  function FindFree(clients: seq<Conn>): (r: int)
    ensures -1 <= r < |clients|
    ensures r >= 0 ==> clients[r].fd < 0
    ensures forall k :: 0 <= k < (if r < 0 then |clients| else r) ==> clients[k].fd >= 0
  {
    if clients == [] then -1
    else
      var r := FindFree(clients[..|clients| - 1]);
      if r < 0 && clients[|clients| - 1].fd < 0 then |clients| - 1 else r
  }

  predicate IsMember(c: Conn, channel: int) {
    Registered(c) && 0 <= channel < |c.joined| && c.joined[channel]
  }

  // ------------------------------------------------------------------ payloads

  /** read_one_string_payload followed by cw_valid_name: the C string in the buffer. */
  function ReadName(payload: Bytes, cap: nat): Option<Bytes> {
    match ReadExactly(payload, 0, [cap + 1])
    case None => None
    case Some(vs) => if vs != [] && NameOk(CStr(vs[0]), 1, cap) then Some(CStr(vs[0])) else None
  }

  /** What handle_frame accepts as the text of SAY. */
  function ReadText(payload: Bytes): Option<Bytes> {
    match ReadExactly(payload, 0, [TEXT_CAP + 1])
    case None => None
    case Some(vs) => if vs != [] && CStr(vs[0]) != [] then Some(CStr(vs[0])) else None
  }

  datatype Direct = Direct(target: Bytes, text: Bytes)

  /** What handle_dm accepts: the target's name and a nonempty text. */
  function ReadDirect(payload: Bytes): Option<Direct> {
    match ReadExactly(payload, 0, [NAME_CAP + 1, TEXT_CAP + 1])
    case None => None
    case Some(vs) =>
      if |vs| == 2 && CStr(vs[1]) != [] then Some(Direct(CStr(vs[0]), CStr(vs[1]))) else None
  }

  /** A sequence of cw_write_string calls on one buffer: what is written, or None if one
      of them refuses. */
  function Written(vs: seq<Bytes>, cap: nat): Option<Bytes> {
    if (forall i :: 0 <= i < |vs| ==> |vs[i]| <= MAX_STRING) && |PackStrings(vs)| <= cap
    then Some(PackStrings(vs))
    else None
  }

  // ------------------------------------------------------------------ fan-out

  /** One round of such a loop: slot j gets f if it is a member and not left out. */
  function Round(s: State, j: nat, channel: int, except: int, f: Frame): State
    requires j < |s.clients|
  {
    if j != except && IsMember(s.clients[j], channel) then Deliver(s, j, f) else s
  }

  /** The first n rounds of a loop over all clients that delivers f to the members of a
      channel, leaving out one slot (-1 for none). */
  function Fanout(s: State, n: nat, channel: int, except: int, f: Frame): (r: State)
    requires n <= |s.clients|
    ensures |r.clients| == |s.clients|
  {
    if n == 0 then s
    else Round(Fanout(s, n - 1, channel, except, f), n - 1, channel, except, f)
  }

  /** broadcast_system_to_active_channel. */
  function Announce(s: State, i: nat, text: Bytes): State
    requires i < |s.clients|
  {
    var channel := FindChannel(s.channels, s.clients[i].active);
    if channel < 0 then s else Fanout(s, |s.clients|, channel, i, Frame(SYSTEM, text))
  }

  /** stats.channel_messages++ at the end of a broadcast. */
  function Logged(s: State, m: Chat): State {
    s.(stats := s.stats.(channelMessages := s.stats.channelMessages + 1), log := s.log + [m])
  }

  /** broadcast_chat. */
  function Broadcast(s: State, i: nat, text: Bytes): State
    requires i < |s.clients|
  {
    var c := s.clients[i];
    var channel := FindChannel(s.channels, c.active);
    if channel < 0 then Say(s, i, ERROR, "join a channel before sending")
    else
      match Written([c.active, c.username, text], MAX_PAYLOAD)
      case None => Say(s, i, ERROR, "message payload too large")
      case Some(payload) =>
        Logged(Fanout(s, |s.clients|, channel, -1, Frame(CHAT, payload)), Chat(c.active, c.username, text))
  }

  // ------------------------------------------------------------------- listings

  /** The snprintf loop of send_who and send_list: names joined by line feeds in a buffer
      of cap bytes with its final NUL, or None when one does not fit. */
  function Lines(names: seq<Bytes>, cap: nat): (r: Option<Bytes>)
    ensures r.Some? && cap > 0 ==> |r.value| < cap
  {
    if names == [] then Some([])
    else
      match Lines(names[..|names| - 1], cap)
      case None => None
      case Some(text) =>
        var piece := (if text == [] then [] else Ascii("\n")) + names[|names| - 1];
        if |text| + |piece| >= cap then None else Some(text + piece)
  }

  /** Names of the members of a channel, in slot order. */
  function Members(clients: seq<Conn>, channel: int): seq<Bytes> {
    if clients == [] then []
    else
      var c := clients[|clients| - 1];
      Members(clients[..|clients| - 1], channel) + (if IsMember(c, channel) then [c.username] else [])
  }

  function SendWho(s: State, i: nat): State
    requires i < |s.clients|
  {
    var channel := FindChannel(s.channels, s.clients[i].active);
    if channel < 0 then Say(s, i, ERROR, "join a channel before listing participants")
    else
      match Lines(Members(s.clients, channel), MAX_PAYLOAD)
      case None => Say(s, i, ERROR, "WHO response too large")
      case Some(text) => Deliver(s, i, Frame(WHO_RESP, text))
  }

  function SendList(s: State, i: nat): State
    requires i < |s.clients|
  {
    match Lines(s.channels, MAX_PAYLOAD)
    case None => Say(s, i, ERROR, "LIST response too large")
    case Some(text) => Deliver(s, i, Frame(LIST_RESP, text))
  }

  function CountRegistered(clients: seq<Conn>): nat {
    if clients == [] then 0
    else CountRegistered(clients[..|clients| - 1]) + (if Registered(clients[|clients| - 1]) then 1 else 0)
  }

  function Decimal(n: nat): Bytes {
    (if n < 10 then [] else Decimal(n / 10)) + [('0' as int + n % 10) as byte]
  }

  function Field(name: string, n: nat): Bytes {
    Ascii("\"") + Ascii(name) + Ascii("\":") + Decimal(n)
  }

  /** The fields from the k-th on, and the closing brace. */
  function FieldsFrom(names: seq<string>, ns: seq<nat>, k: nat): Bytes
    requires k < |names| == |ns|
    decreases |names| - k
  {
    if k + 1 == |names| then Field(names[k], ns[k]) + Ascii("}")
    else Field(names[k], ns[k]) + (Ascii(",") + FieldsFrom(names, ns, k + 1))
  }

  /** The JSON text of send_stats. */
  function StatsText(st: Stats, registered: nat, channels: nat, maxQueue: nat): Bytes {
    var names := ["current_connections", "registered_clients", "total_connections", "channels", "channel_messages",
                  "direct_messages", "malformed_frames", "queue_disconnects", "max_queue_bytes"];
    var ns := [st.current, registered, st.total, channels, st.channelMessages,
               st.directMessages, st.malformed, st.queueDisconnects, maxQueue];
    Ascii("{") + FieldsFrom(names, ns, 0)
  }

  function SendStats(s: State, i: nat): State
    requires i < |s.clients|
  {
    var text := StatsText(s.stats, CountRegistered(s.clients), |s.channels|, s.maxQueue);
    if |text| >= MAX_PAYLOAD then Say(s, i, ERROR, "stats response too large")
    else Deliver(s, i, Frame(STATS_RESP, text))
  }

  // ------------------------------------------------------------------- commands

  function Rename(c: Conn, name: Bytes): Conn {
    c.(username := name, registered := true)
  }

  function HandleHello(s: State, i: nat, payload: Bytes): State
    requires i < |s.clients|
  {
    match ReadName(payload, NAME_CAP)
    case None => Say(s, i, ERROR, "invalid username")
    case Some(name) =>
      if InUse(s, name, i) then Say(s, i, ERROR, "username already in use")
      else Say(Update(s, i, Rename(s.clients[i], name)), i, OK, "registered")
  }

  /** Raise a joined flag; a membership begins when the flag was down. */
  function Enter(s: State, c: Conn, channel: nat): Conn {
    if channel >= |c.joined| || c.joined[channel] then c
    else
      var since := c.history.since;
      var mark := Mark(|c.history.accepted|, |s.log|);
      c.(joined := c.joined[channel := true],
         history := c.history.(since := if channel < |since| then since[channel := mark] else since))
  }

  /** join_channel once the name is known to be valid. */
  function EnterNamed(s: State, i: nat, name: Bytes): State
    requires i < |s.clients|
  {
    var found := FindChannel(s.channels, name);
    if found < 0 && |s.channels| >= MAX_CHANNELS then Say(s, i, ERROR, "too many channels")
    else
      var t := if found < 0 then s.(channels := s.channels + [name]) else s;
      var channel := if found < 0 then |s.channels| else found;
      var c := Enter(t, t.clients[i], channel).(active := name);
      Deliver(Update(t, i, c), i, Frame(OK, Ascii("joined ") + name))
  }

  function JoinChannel(s: State, i: nat, payload: Bytes): State
    requires i < |s.clients|
  {
    if !s.clients[i].registered then Say(s, i, ERROR, "send HELLO first")
    else
      match ReadName(payload, CHANNEL_CAP)
      case None => Say(s, i, ERROR, "invalid channel")
      case Some(name) => EnterNamed(s, i, name)
  }

  function SwitchNamed(s: State, i: nat, name: Bytes): State
    requires i < |s.clients|
  {
    var c := s.clients[i];
    var channel := FindChannel(s.channels, name);
    if !(0 <= channel < |c.joined| && c.joined[channel]) then Say(s, i, ERROR, "join channel before switching")
    else Deliver(Update(s, i, c.(active := name)), i, Frame(OK, Ascii("switched ") + name))
  }

  function SwitchChannel(s: State, i: nat, payload: Bytes): State
    requires i < |s.clients|
  {
    if !s.clients[i].registered then Say(s, i, ERROR, "send HELLO first")
    else
      match ReadName(payload, CHANNEL_CAP)
      case None => Say(s, i, ERROR, "invalid channel")
      case Some(name) => SwitchNamed(s, i, name)
  }

  function LeaveNamed(s: State, i: nat, name: Bytes): State
    requires i < |s.clients|
  {
    var c := s.clients[i];
    var channel := FindChannel(s.channels, name);
    if !(0 <= channel < |c.joined| && c.joined[channel]) then Say(s, i, ERROR, "not in channel")
    else
      var d := c.(joined := c.joined[channel := false], active := if c.active == name then [] else c.active);
      Say(Update(s, i, d), i, OK, "left channel")
  }

  function LeaveChannel(s: State, i: nat, payload: Bytes): State
    requires i < |s.clients|
  {
    match ReadName(payload, CHANNEL_CAP)
    case None => Say(s, i, ERROR, "invalid channel")
    case Some(name) => LeaveNamed(s, i, name)
  }

  function CountDirect(s: State): State {
    s.(stats := s.stats.(directMessages := s.stats.directMessages + 1))
  }

  /** Queue the message for its target and confirm it; a target without room is dropped,
      and then there is no confirmation. */
  function Relay(s: State, i: nat, target: nat, f: Frame): State
    requires i < |s.clients| && target < |s.clients|
  {
    var e := Enqueue(s, target, f);
    if !e.ok then Overflowed(e.state, target)
    else Say(CountDirect(e.state), i, OK, "direct message sent")
  }

  function DirectTo(s: State, i: nat, dm: Direct): State
    requires i < |s.clients|
  {
    var target := FindUser(s.clients, dm.target);
    if target < 0 then Say(s, i, ERROR, "user not found")
    else
      match Written([s.clients[i].username, dm.text], MAX_PAYLOAD)
      case None => Overflowed(s, target)
      case Some(p) => Relay(s, i, target, Frame(DM_RECV, p))
  }

  function HandleDm(s: State, i: nat, payload: Bytes): State
    requires i < |s.clients|
  {
    if !s.clients[i].registered then Say(s, i, ERROR, "send HELLO first")
    else
      match ReadDirect(payload)
      case None => Say(s, i, ERROR, "invalid direct message")
      case Some(dm) => DirectTo(s, i, dm)
  }

  function Notice(oldName: Bytes, name: Bytes): Bytes {
    (if oldName == [] then Ascii("anonymous") else oldName) + Ascii(" is now ") + name
  }

  function NickNamed(s: State, i: nat, name: Bytes): State
    requires i < |s.clients|
  {
    var t := Say(Update(s, i, Rename(s.clients[i], name)), i, OK, "username changed");
    if i < |t.clients| then Announce(t, i, Notice(s.clients[i].username, name)) else t
  }

  function HandleNick(s: State, i: nat, payload: Bytes): State
    requires i < |s.clients|
  {
    match ReadName(payload, NAME_CAP)
    case None => Say(s, i, ERROR, "invalid username")
    case Some(name) =>
      if InUse(s, name, i) then Say(s, i, ERROR, "username already in use")
      else NickNamed(s, i, name)
  }

  function HandleSay(s: State, i: nat, payload: Bytes): State
    requires i < |s.clients|
  {
    if !s.clients[i].registered then Say(s, i, ERROR, "send HELLO first")
    else if s.clients[i].active == [] then Say(s, i, ERROR, "join a channel before sending")
    else
      match ReadText(payload)
      case None => Say(s, i, ERROR, "invalid message")
      case Some(text) => Broadcast(s, i, text)
  }

  /** The commands without a payload, and what is no command. */
  function HandleBare(s: State, i: nat, kind: byte): State
    requires i < |s.clients|
  {
    if kind == WHO then SendWho(s, i)
    else if kind == LIST then SendList(s, i)
    else if kind == QUIT then Reset(s, i, ClientQuit)
    else if kind == STATS then SendStats(s, i)
    else Say(s, i, ERROR, "unknown message type")
  }

  /** handle_frame. */
  function HandleFrame(s: State, i: nat, f: Frame): State
    requires i < |s.clients|
  {
    if f.kind == HELLO then HandleHello(s, i, f.payload)
    else if f.kind == JOIN then JoinChannel(s, i, f.payload)
    else if f.kind == SWITCH then SwitchChannel(s, i, f.payload)
    else if f.kind == LEAVE then LeaveChannel(s, i, f.payload)
    else if f.kind == SAY then HandleSay(s, i, f.payload)
    else if f.kind == DM then HandleDm(s, i, f.payload)
    else if f.kind == NICK then HandleNick(s, i, f.payload)
    else HandleBare(s, i, f.kind)
  }

  predicate AboutChannels(kind: byte) {
    kind == JOIN || kind == SWITCH || kind == LEAVE
  }

  lemma HandlerOf(s: State, i: nat, f: Frame)
    requires i < |s.clients|
    ensures f.kind == HELLO ==> HandleFrame(s, i, f) == HandleHello(s, i, f.payload)
    ensures f.kind == JOIN ==> HandleFrame(s, i, f) == JoinChannel(s, i, f.payload)
    ensures f.kind == SWITCH ==> HandleFrame(s, i, f) == SwitchChannel(s, i, f.payload)
    ensures f.kind == LEAVE ==> HandleFrame(s, i, f) == LeaveChannel(s, i, f.payload)
    ensures f.kind == SAY ==> HandleFrame(s, i, f) == HandleSay(s, i, f.payload)
    ensures f.kind == DM ==> HandleFrame(s, i, f) == HandleDm(s, i, f.payload)
    ensures f.kind == NICK ==> HandleFrame(s, i, f) == HandleNick(s, i, f.payload)
    ensures f.kind != HELLO && f.kind != NICK && f.kind != SAY && f.kind != DM && !AboutChannels(f.kind) ==>
              HandleFrame(s, i, f) == HandleBare(s, i, f.kind)
  {
  }

  // --------------------------------------------------------------------- input

  function Dispatch(s: State, i: nat, f: Frame): State
    requires i < |s.clients|
  {
    var c := s.clients[i];
    HandleFrame(Update(s, i, c.(history := c.history.(dispatched := c.history.dispatched + [f]))), i, f)
  }

  /** memmove of what follows the first frame to the front of the buffer. */
  function Consume(s: State, i: nat, rest: Bytes): State
    requires i < |s.clients|
  {
    Update(s, i, s.clients[i].(inbuf := rest))
  }

  function CountMalformed(s: State): State {
    s.(stats := s.stats.(malformed := s.stats.malformed + 1))
  }

  /** drain_input; ok is false where it returns -1. */
  function Drain(s: State, i: nat): (r: Outcome)
    requires i < |s.clients|
    ensures r.ok ==> i < |r.state.clients|
    decreases |s.clients[i].inbuf|
  {
    var b := s.clients[i].inbuf;
    if Malformed(b) then Outcome(Say(CountMalformed(s), i, ERROR, "malformed frame"), false)
    else if !FrameReady(b) then Outcome(s, true)
    else
      var t := Dispatch(s, i, FirstFrame(b));
      if !Live(t, i) then Outcome(t, false)
      else Drain(Consume(t, i, AfterFirst(b)), i)
  }

  /** An answer of recv: bytes that have arrived (none: the peer has closed), EAGAIN,
      EINTR or another error. */
  datatype Recv = Data(bytes: Bytes) | RecvAgain | RecvInterrupted | RecvError

  function Min(a: nat, b: nat): nat {
    if a < b then a else b
  }

  function Append(s: State, i: nat, chunk: Bytes): State
    requires i < |s.clients|
  {
    var c := s.clients[i];
    Update(s, i, c.(inbuf := c.inbuf + chunk, history := c.history.(received := c.history.received + chunk)))
  }

  /** What is still to be read when n of the first answer's bytes have been taken. */
  function Later(answers: seq<Recv>, n: nat): seq<Recv>
    requires answers != [] && answers[0].Data? && n <= |answers[0].bytes|
  {
    if n < |answers[0].bytes| then [Data(answers[0].bytes[n..])] + answers[1..] else answers[1..]
  }

  /** read_from_client. recv is asked for what the buffer has room for, so longer data
      stays for the next call. After the last answer there is nothing more to read. */
  function ReadFrom(s: State, i: nat, answers: seq<Recv>): State
    requires i < |s.clients|
    decreases |answers|, if answers != [] && answers[0].Data? then |answers[0].bytes| else 0
  {
    var c := s.clients[i];
    if |c.inbuf| >= INBUF_CAP then Reset(s, i, BufferFull)
    else if answers == [] || answers[0].RecvAgain? then s
    else if answers[0].RecvInterrupted? then ReadFrom(s, i, answers[1..])
    else if answers[0].RecvError? then Reset(s, i, RecvFailed)
    else if answers[0].bytes == [] then Reset(s, i, PeerClosed)
    else
      var n := Min(|answers[0].bytes|, INBUF_CAP - |c.inbuf|);
      var d := Drain(Append(s, i, answers[0].bytes[..n]), i);
      if d.ok then ReadFrom(d.state, i, Later(answers, n)) else d.state
  }

  // -------------------------------------------------------------------- output

  /** An answer of send: bytes taken, EAGAIN, EINTR or another error. */
  datatype Send = Took(count: nat) | SendAgain | SendInterrupted | SendError

  /** send took n bytes of the head frame. */
  function Progress(c: Conn, n: nat): Conn
    requires c.queue != [] && c.queue[0].sent + n <= |c.queue[0].data|
  {
    var q := c.queue[0];
    var d := c.(history := c.history.(sent := c.history.sent + q.data[q.sent..q.sent + n]));
    if q.sent + n == |q.data|
    then d.(queue := c.queue[1..], queuedBytes := c.queuedBytes - |q.data|)
    else d.(queue := [Queued(q.data, q.sent + n)] + c.queue[1..])
  }

  /** write_to_client. send never takes more than it was offered. */
  function WriteTo(s: State, i: nat, answers: seq<Send>): State
    requires i < |s.clients|
    decreases |answers|
  {
    var c := s.clients[i];
    if c.queue == [] || answers == [] || answers[0].SendAgain? then s
    else if answers[0].SendInterrupted? then WriteTo(s, i, answers[1..])
    else if answers[0].SendError? || answers[0].count == 0 || c.queue[0].sent >= |c.queue[0].data| then
      Reset(s, i, SendFailed)
    else
      var n := Min(answers[0].count, |c.queue[0].data| - c.queue[0].sent);
      WriteTo(Update(s, i, Progress(c, n)), i, answers[1..])
  }

  // ---------------------------------------------------------------- the poll loop

  /** An answer of accept: a descriptor, and whether it could be made non-blocking. */
  datatype Accept = Fd(fd: nat, nonblocking: bool) | AcceptAgain | AcceptInterrupted | AcceptError

  function Fresh(s: State, fd: nat): Conn {
    Blank().(fd := fd, history := NoHistory().(serial := s.stats.total))
  }

  function Seat(s: State, slot: nat, fd: nat): State
    requires slot < |s.clients|
  {
    Update(s, slot, Fresh(s, fd)).(stats := s.stats.(current := s.stats.current + 1, total := s.stats.total + 1))
  }

  function Admit(s: State, a: Accept): State
    requires a.Fd?
  {
    var slot := FindFree(s.clients);
    if slot < 0 || !a.nonblocking then s
    else Seat(s, slot, a.fd)
  }

  /** accept_clients. */
  function AcceptAll(s: State, answers: seq<Accept>): (r: State)
    ensures |r.clients| == |s.clients|
    decreases |answers|
  {
    if answers == [] || answers[0].AcceptAgain? || answers[0].AcceptError? then s
    else if answers[0].AcceptInterrupted? then AcceptAll(s, answers[1..])
    else AcceptAll(Admit(s, answers[0]), answers[1..])
  }

  /** What poll reports for one descriptor, and what recv and send answer then. */
  datatype Revents = Revents(error: bool, readable: bool, writable: bool, recvs: seq<Recv>, sends: seq<Send>)

  /** One round of the loop over the polled descriptors. */
  function Serve(s: State, fd: int, ev: Revents): State {
    var i := FindFd(s.clients, fd);
    if i < 0 then s
    else if ev.error then Reset(s, i, PollError)
    else
      var t := if ev.readable then ReadFrom(s, i, ev.recvs) else s;
      if Live(t, i) && ev.writable then WriteTo(t, i, ev.sends) else t
  }

  /** The descriptors of the live clients, in slot order. */
  function Polled(clients: seq<Conn>): seq<int> {
    if clients == [] then []
    else
      var c := clients[|clients| - 1];
      Polled(clients[..|clients| - 1]) + (if c.fd >= 0 then [c.fd] else [])
  }

  /** The first n rounds; a descriptor without a report has none of the flags set. */
  function ServeAll(s: State, fds: seq<int>, events: seq<Revents>, n: nat): State
    requires n <= |fds|
  {
    if n == 0 then s
    else
      var t := ServeAll(s, fds, events, n - 1);
      if n - 1 < |events| then Serve(t, fds[n - 1], events[n - 1]) else t
  }

  /** One poll that reports something: what accept answers if the listener is readable,
      and the reports for the polled clients. */
  datatype Pass = Pass(listening: bool, accepts: seq<Accept>, events: seq<Revents>)

  function PollPass(s: State, p: Pass): State {
    var t := if p.listening then AcceptAll(s, p.accepts) else s;
    ServeAll(t, Polled(s.clients), p.events, |Polled(s.clients)|)
  }

  function Run(s: State, ps: seq<Pass>): State
    decreases |ps|
  {
    if ps == [] then s else PollPass(Run(s, ps[..|ps| - 1]), ps[|ps| - 1])
  }
}
