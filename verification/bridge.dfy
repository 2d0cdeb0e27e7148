/** The WebSocket bridge of gateway/app/main.py as interleaved steps: sessions with their
    two pumps, FIFO channels to the core, and a core that may answer, drop and delay as
    core.dfy allows. What each pump does to the gateway's own data is OnEvent and
    OnCommand; gateway.dfy does exactly that in place. */
module Bridge {
  import opened Bytes

  // ---------------------------------------------------------------- the pumps

  /** An entry of pending_dms. */
  datatype Pending = Pending(target: Bytes, text: Bytes)

  /** A frame from the core as the gateway tells them apart. The tags are not in the
      frames: they say which broadcast or delivery a frame belongs to. */
  datatype Event = ChatEvent(tag: nat, channel: Bytes, sender: Bytes, text: Bytes)
                 | DmEvent(tag: nat, sender: Bytes, text: Bytes)
                 | DmSent(tag: nat)            // OK with "direct message sent"
                 | DmRefused(dm: Pending)      // an ERROR that answers a DM
                 | OtherError                  // any other ERROR
                 | Other                       // everything else

  datatype Command = SayCommand(text: Bytes) | DmCommand(dm: Pending) | OtherCommand

  datatype Saved = SavedChat(channel: Bytes, sender: Bytes, text: Bytes)
                 | SavedDm(sender: Bytes, recipient: Bytes, text: Bytes)

  datatype Reaction = Reaction(pending: seq<Pending>, saves: seq<Saved>)

  function ActiveCount(active: map<Bytes, nat>, user: Bytes): nat {
    if user in active then active[user] else 0
  }

  function Popped(pending: seq<Pending>): seq<Pending> {
    if pending == [] then [] else pending[1..]
  }

  /** One round of pump_core_to_ws. */
  function OnEvent(user: Bytes, active: map<Bytes, nat>, pending: seq<Pending>, e: Event): Reaction {
    match e
    case ChatEvent(_, channel, sender, text) =>
      Reaction(pending, if sender == user then [SavedChat(channel, sender, text)] else [])
    case DmEvent(_, sender, text) =>
      Reaction(pending, if ActiveCount(active, sender) == 0 then [SavedDm(sender, user, text)] else [])
    case DmSent(_) =>
      Reaction(Popped(pending), if pending == [] then [] else [SavedDm(user, pending[0].target, pending[0].text)])
    case DmRefused(_) => Reaction(Popped(pending), [])
    case OtherError => Reaction(Popped(pending), [])
    case Other => Reaction(pending, [])
  }

  /** What pump_ws_to_core does to pending_dms before it sends a command. */
  function OnCommand(pending: seq<Pending>, c: Command): seq<Pending> {
    if c.DmCommand? then pending + [c.dm] else pending
  }

  function Entered(active: map<Bytes, nat>, user: Bytes): map<Bytes, nat> {
    active[user := ActiveCount(active, user) + 1]
  }

  /** The finally block: decrement, and delete at zero. */
  function Left(active: map<Bytes, nat>, user: Bytes): map<Bytes, nat> {
    var before := if user in active then active[user] else 1;
    if before <= 1 then active - {user} else active[user := before - 1]
  }

  // ---------------------------------------------------------------- the world

  /** A connection to the core: a gateway session, or a client that talks to the core
      directly. user is the name the gateway knows, name the one the core knows. renamed is
      the history of whether NICK has ever set them apart, seen that of the events its core
      pump has handled. deaf: when the endpoint ended, it was the core pump that had raised. */
  datatype Session = Session(
    user: Bytes, name: Bytes, renamed: bool, gateway: bool,
    started: bool, abandoned: bool, ended: bool, deaf: bool, connected: bool,
    pending: seq<Pending>, toCore: seq<Command>, fromCore: seq<Event>, seen: seq<Event>)

  /** A direct message the core has put in its target's queue. */
  datatype Delivery = Delivery(from: nat, to: nat, sender: Bytes, dm: Pending)

  datatype Broadcast = Broadcast(from: nat, channel: Bytes, sender: Bytes, text: Bytes)

  /** A message saved, the event that caused it and the session that saved it. */
  datatype Row = Row(message: Saved, cause: Event, writer: nat)

  datatype World = World(
    sessions: seq<Session>, active: map<Bytes, nat>,
    deliveries: seq<Delivery>, broadcasts: seq<Broadcast>, rows: seq<Row>)

  function Nothing(): World {
    World([], map[], [], [], [])
  }

  /** Between the increment of active_gateway_users and its decrement; for an abandoned
      session the decrement never comes. */
  predicate Counted(x: Session) {
    x.gateway && x.started && !x.ended
  }

  datatype Action =
    | Open(user: Bytes, gateway: bool)                  // register with the core
    | Start(i: nat)                                     // the endpoint is entered
    | Abandon(i: nat)                                   // sending the ready frame raises
    | Send(i: nat, command: Command)                    // a command leaves for the core
    | Deliver(i: nat, to: nat, dropped: Option<nat>)    // the core delivers a DM
    | Refuse(i: nat)                                    // the core refuses a DM
    | Overflow(i: nat, to: nat, keep: nat)              // the DM's target has no room
    | Say(i: nat, channel: Bytes, members: set<nat>, drops: map<nat, nat>)
    | Answer(i: nat, error: bool)                       // any other command
    | Nick(i: nat, name: Bytes)                         // the core renames a client
    | Protest(i: nat)                                   // an ERROR for bytes that are no command
    | Notify(i: nat)                                    // a SYSTEM notice
    | Drop(i: nat, keep: nat)                           // the core closes a connection
    | Handle(i: nat)                                    // one round of pump_core_to_ws
    | End(i: nat, deaf: bool)                           // the endpoint's finally block
    | Late(i: nat, command: Command, reaches: bool)     // a command after it

  predicate Connected(w: World, i: nat) {
    i < |w.sessions| && w.sessions[i].connected
  }

  predicate DmAtHead(w: World, i: nat) {
    Connected(w, i) && w.sessions[i].toCore != [] && w.sessions[i].toCore[0].DmCommand?
  }

  /** The core looks a target up among the registered names as a C string. */
  predicate Addressed(w: World, i: nat, to: nat) {
    DmAtHead(w, i) && Connected(w, to) && w.sessions[to].name == CStr(w.sessions[i].toCore[0].dm.target)
  }

  /** core_payload_for_command lets no DM through whose target is not a valid name. */
  predicate CommandOk(x: Session, c: Command) {
    x.gateway && c.DmCommand? ==> NulFree(c.dm.target)
  }

  /** No connection of the core but i has the name. */
  predicate Free(w: World, i: nat, name: Bytes) {
    forall j :: 0 <= j < |w.sessions| && w.sessions[j].connected && j != i ==> w.sessions[j].name != name
  }

  /** The pumps of the session have been started. */
  predicate Pumping(x: Session) {
    x.gateway && x.started && !x.abandoned
  }

  /** Names are unique among the connections of the core, and the sender of a broadcast is
      one of the members it goes to. When one pump fails the other is not cancelled, so it
      may go on after the endpoint has ended: the core pump handles what still arrives, and
      the browser pump writes to a closed writer, which may or may not still send. */
  predicate Enabled(w: World, a: Action) {
    match a
    case Open(user, _) => Free(w, |w.sessions|, user)
    case Start(i) => i < |w.sessions| && w.sessions[i].gateway && !w.sessions[i].started
    case Abandon(i) =>
      i < |w.sessions| && Counted(w.sessions[i]) && w.sessions[i].pending == [] && w.sessions[i].seen == []
    case Send(i, c) =>
      && i < |w.sessions| && CommandOk(w.sessions[i], c)
      && (w.sessions[i].gateway ==> Pumping(w.sessions[i]) && !w.sessions[i].ended)
    case Deliver(i, to, _) => Addressed(w, i, to)
    case Refuse(i) => DmAtHead(w, i)
    case Overflow(i, to, _) => Addressed(w, i, to)
    case Say(i, _, members, drops) =>
      && Connected(w, i) && w.sessions[i].toCore != [] && w.sessions[i].toCore[0].SayCommand?
      && i in members && drops.Keys <= members
      && forall j :: j in members ==> Connected(w, j)
    case Answer(i, _) => Connected(w, i) && w.sessions[i].toCore != [] && !w.sessions[i].toCore[0].DmCommand?
    case Nick(i, name) =>
      Connected(w, i) && w.sessions[i].toCore != [] && w.sessions[i].toCore[0].OtherCommand? && Free(w, i, name)
    case Protest(i) => Connected(w, i)
    case Notify(i) => Connected(w, i)
    case Drop(i, _) => Connected(w, i)
    case Handle(i) =>
      i < |w.sessions| && Pumping(w.sessions[i]) && !w.sessions[i].deaf && w.sessions[i].fromCore != []
    case End(i, _) => i < |w.sessions| && Pumping(w.sessions[i]) && !w.sessions[i].ended
    case Late(i, c, _) =>
      i < |w.sessions| && Pumping(w.sessions[i]) && w.sessions[i].deaf && CommandOk(w.sessions[i], c)
  }

  function Put(x: Session, e: Event): Session {
    x.(fromCore := x.fromCore + [e])
  }

  function Kept(events: seq<Event>, keep: nat): (r: seq<Event>)
    ensures r <= events
  {
    if keep < |events| then events[..keep] else events
  }

  /** The core closes a connection: what it had not sent yet never arrives. */
  function Cut(x: Session, keep: nat): Session {
    x.(connected := false, fromCore := Kept(x.fromCore, keep))
  }

  function Take(x: Session): Session
    requires x.toCore != []
  {
    x.(toCore := x.toCore[1..])
  }

  function With(w: World, i: nat, x: Session): World
    requires i < |w.sessions|
  {
    w.(sessions := w.sessions[i := x])
  }

  function Sent(w: World, i: nat, e: Event): World
    requires i < |w.sessions|
  {
    With(w, i, Put(w.sessions[i], e))
  }

  function Closed(w: World, i: nat, keep: nat): World
    requires i < |w.sessions|
  {
    With(w, i, Cut(w.sessions[i], keep))
  }

  function Taken(w: World, i: nat): World
    requires i < |w.sessions| && w.sessions[i].toCore != []
  {
    With(w, i, Take(w.sessions[i]))
  }

  function Renamed(w: World, i: nat, name: Bytes): World
    requires i < |w.sessions| && w.sessions[i].toCore != []
  {
    var x := Take(w.sessions[i]);
    With(w, i, x.(name := name, renamed := x.renamed || name != x.name))
  }

  function Recorded(w: World, i: nat, to: nat): World
    requires Addressed(w, i, to)
  {
    Taken(w, i).(deliveries := w.deliveries + [Delivery(i, to, w.sessions[i].name, w.sessions[i].toCore[0].dm)])
  }

  function Delivered(w: World, i: nat, to: nat, dropped: Option<nat>): World
    requires Addressed(w, i, to)
  {
    var tag := |w.deliveries|;
    var u := Sent(Recorded(w, i, to), to, DmEvent(tag, w.sessions[i].name, CStr(w.sessions[i].toCore[0].dm.text)));
    match dropped
    case None => Sent(u, i, DmSent(tag))
    case Some(keep) => Closed(u, i, keep)
  }

  function Heard(x: Session, j: nat, e: Event, members: set<nat>, drops: map<nat, nat>): Session {
    if j in drops then Cut(x, drops[j]) else if j in members then Put(x, e) else x
  }

  function Said(w: World, i: nat, channel: Bytes, members: set<nat>, drops: map<nat, nat>): World
    requires Enabled(w, Say(i, channel, members, drops))
  {
    var v := Taken(w, i);
    var text := CStr(w.sessions[i].toCore[0].text);
    var e := ChatEvent(|w.broadcasts|, channel, w.sessions[i].name, text);
    v.(sessions := seq(|v.sessions|, j requires 0 <= j < |v.sessions| => Heard(v.sessions[j], j, e, members, drops)),
       broadcasts := w.broadcasts + [Broadcast(i, channel, w.sessions[i].name, text)])
  }

  function Rows(saves: seq<Saved>, e: Event, i: nat): seq<Row> {
    if saves == [] then [] else [Row(saves[0], e, i)]
  }

  /** pump_core_to_ws handles the next event of session i. */
  function Handled(w: World, i: nat): World
    requires Enabled(w, Handle(i))
  {
    var x := w.sessions[i];
    var e := x.fromCore[0];
    var r := OnEvent(x.user, w.active, x.pending, e);
    With(w, i, x.(fromCore := x.fromCore[1..], seen := x.seen + [e], pending := r.pending)).(
      rows := w.rows + Rows(r.saves, e, i))
  }

  function Opened(user: Bytes, gateway: bool): Session {
    Session(user, user, false, gateway, false, false, false, false, true, [], [], [], [])
  }

  function Step(w: World, a: Action): World
    requires Enabled(w, a)
  {
    match a
    case Open(user, gateway) => w.(sessions := w.sessions + [Opened(user, gateway)])
    case Start(i) =>
      With(w, i, w.sessions[i].(started := true)).(active := Entered(w.active, w.sessions[i].user))
    case Send(i, c) =>
      var x := w.sessions[i];
      With(w, i, x.(pending := if x.gateway then OnCommand(x.pending, c) else x.pending, toCore := x.toCore + [c]))
    case Deliver(i, to, dropped) => Delivered(w, i, to, dropped)
    case Refuse(i) => Sent(Taken(w, i), i, DmRefused(w.sessions[i].toCore[0].dm))
    case Overflow(i, to, keep) => Closed(Taken(w, i), to, keep)
    case Say(i, channel, members, drops) => Said(w, i, channel, members, drops)
    case Answer(i, error) => Sent(Taken(w, i), i, if error then OtherError else Other)
    case Nick(i, name) =>
      Sent(Renamed(w, i, name), i, Other)
    case Protest(i) => Sent(w, i, OtherError)
    case Abandon(i) => With(w, i, w.sessions[i].(abandoned := true))
    case Notify(i) => Sent(w, i, Other)
    case Drop(i, keep) => Closed(w, i, keep)
    case Handle(i) => Handled(w, i)
    case End(i, deaf) =>
      With(w, i, w.sessions[i].(ended := true, deaf := deaf)).(active := Left(w.active, w.sessions[i].user))
    case Late(i, c, reaches) =>
      var x := w.sessions[i];
      With(w, i, x.(pending := OnCommand(x.pending, c), toCore := if reaches then x.toCore + [c] else x.toCore))
  }

  // ---------------------------------------------------------------- runs

  function Run(actions: seq<Action>): World {
    if actions == [] then Nothing()
    else
      var w := Run(actions[..|actions| - 1]);
      if Enabled(w, actions[|actions| - 1]) then Step(w, actions[|actions| - 1]) else w
  }

  predicate Possible(actions: seq<Action>) {
    actions != [] ==>
      && Possible(actions[..|actions| - 1])
      && Enabled(Run(actions[..|actions| - 1]), actions[|actions| - 1])
  }

  /** The two assumptions under which replies pair up: the core answers every DM of a
      gateway session that stays connected, and no other error is handled while a DM is
      pending. */
  predicate Paired(w: World, a: Action) {
    match a
    case Overflow(i, to, _) => i < |w.sessions| && (w.sessions[i].gateway ==> to == i)
    case Handle(i) =>
      && i < |w.sessions|
      && (w.sessions[i].fromCore != [] && w.sessions[i].fromCore[0].OtherError? ==> w.sessions[i].pending == [])
    case _ => true
  }

  predicate AllPaired(actions: seq<Action>) {
    actions != [] ==>
      && AllPaired(actions[..|actions| - 1])
      && Paired(Run(actions[..|actions| - 1]), actions[|actions| - 1])
  }
}
