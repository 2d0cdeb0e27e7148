/** gateway/app/main.py in its own form: what a command becomes on its way to the core, what
    a frame from the core becomes, and the two pumps changing pending_dms, the count of
    active users and the database in place. */
module GatewayProcess {
  import opened Bytes
  import opened Wire
  import opened Bridge
  import Core
  import CoreText
  import Store

  // ---------------------------------------------------------------- commands

  /** A parsed command: the frame type CLIENT_COMMANDS has for it, and its fields; None for
      a field that is missing or not a string. */
  datatype Message = Message(
    kind: Option<byte>, channel: Option<Bytes>, text: Option<Bytes>, username: Option<Bytes>, to: Option<Bytes>)

  function Nonempty(field: Option<Bytes>): Option<seq<Bytes>> {
    if field.None? || field.value == [] then None else Some([field.value])
  }

  /** What str.strip removes, among the ASCII characters. */
  predicate Blank(text: Bytes) {
    forall i :: 0 <= i < |text| ==> text[i] == 32 || 9 <= text[i] <= 13 || 28 <= text[i] <= 31
  }

  /** The strings of a command's payload; None where core_payload_for_command raises. */
  function Fields(m: Message): Option<seq<Bytes>> {
    if m.kind.None? then None
    else if m.kind.value in [Core.WHO, Core.LIST, Core.QUIT, Core.STATS] then Some([])
    else if m.kind.value in [Core.JOIN, Core.SWITCH, Core.LEAVE] then Nonempty(m.channel)
    else if m.kind.value == Core.SAY then Nonempty(m.text)
    else if m.kind.value == Core.NICK then Nonempty(m.username)
    else if m.kind.value == Core.DM then
      if m.to.None? || !NameOk(m.to.value, 1, 32) then None
      else if m.text.None? || Blank(m.text.value) then None
      else Some([m.to.value, m.text.value])
    else None
  }

  /** core_payload_for_command. */
  function CorePayload(m: Message): Option<Frame> {
    match Fields(m)
    case None => None
    case Some(vs) => if Packable(vs) then Some(Frame(m.kind.value, PackStrings(vs))) else None
  }

  /** What the core reads of two strings the gateway packed. */
  lemma TwoReadBack(a: Bytes, b: Bytes)
    requires |a| <= Core.NAME_CAP && |b| < 0x1_0000
    ensures ReadExactly(PackStrings([a, b]), 0, [Core.NAME_CAP + 1, Core.TEXT_CAP + 1]) ==
      if |b| <= Core.TEXT_CAP then Some([a, b]) else None
  {
    var vs, caps := [a, b], [Core.NAME_CAP + 1, Core.TEXT_CAP + 1];
    var p := PackStrings(vs);
    UnpackInvertsPack(vs);
    assert p[0..] == p;
    ReadersAgree(p, 0, caps);
    assert FitCaps(vs, caps) <==> |b| <= Core.TEXT_CAP by {
      assert FitCaps(vs, caps) ==> |vs[1]| < caps[1];
    }
  }

  /** A DM that leaves the gateway names its target to the core as it was typed; the core
      takes it exactly when the text fits and does not start with a NUL. */
  lemma DmReachesTheCore(m: Message)
    requires CorePayload(m).Some? && m.kind == Some(Core.DM)
    ensures m.to.Some? && m.text.Some? && NulFree(m.to.value)
    ensures Core.ReadDirect(CorePayload(m).value.payload) ==
      if |m.text.value| <= Core.TEXT_CAP && CStr(m.text.value) != []
      then Some(Core.Direct(m.to.value, CStr(m.text.value))) else None
  {
    var vs := [m.to.value, m.text.value];
    assert |vs[1]| < 0x1_0000;
    TwoReadBack(m.to.value, m.text.value);
    CStrOfNulFree(m.to.value);
  }

  /** The same for the text of a SAY. */
  lemma SayReachesTheCore(m: Message)
    requires CorePayload(m).Some? && m.kind == Some(Core.SAY)
    ensures m.text.Some?
    ensures Core.ReadText(CorePayload(m).value.payload) ==
      if |m.text.value| <= Core.TEXT_CAP && CStr(m.text.value) != [] then Some(CStr(m.text.value)) else None
  {
    var vs := [m.text.value];
    var p := PackStrings(vs);
    UnpackInvertsPack(vs);
    assert p[0..] == p;
    ReadersAgree(p, 0, [Core.TEXT_CAP + 1]);
  }

  /** A channel name goes through exactly when it is a valid name up to its first NUL. */
  lemma ChannelReachesTheCore(m: Message)
    requires CorePayload(m).Some? && m.kind.value in [Core.JOIN, Core.SWITCH, Core.LEAVE]
    ensures m.channel.Some?
    ensures Core.ReadName(CorePayload(m).value.payload, Core.CHANNEL_CAP) ==
      if |m.channel.value| <= Core.CHANNEL_CAP && NameOk(CStr(m.channel.value), 1, Core.CHANNEL_CAP)
      then Some(CStr(m.channel.value)) else None
  {
    var vs := [m.channel.value];
    var p := PackStrings(vs);
    UnpackInvertsPack(vs);
    assert p[0..] == p;
    ReadersAgree(p, 0, [Core.CHANNEL_CAP + 1]);
  }

  /** And so does a new name. */
  lemma NickReachesTheCore(m: Message)
    requires CorePayload(m).Some? && m.kind == Some(Core.NICK)
    ensures m.username.Some?
    ensures Core.ReadName(CorePayload(m).value.payload, Core.NAME_CAP) ==
      if |m.username.value| <= Core.NAME_CAP && NameOk(CStr(m.username.value), 1, Core.NAME_CAP)
      then Some(CStr(m.username.value)) else None
  {
    var vs := [m.username.value];
    var p := PackStrings(vs);
    UnpackInvertsPack(vs);
    assert p[0..] == p;
    ReadersAgree(p, 0, [Core.NAME_CAP + 1]);
  }

  // ---------------------------------------------------------------- events

  datatype View = ChatView(channel: Bytes, sender: Bytes, text: Bytes)
                | DmView(sender: Bytes, text: Bytes)
                | UsersView(users: seq<Bytes>)
                | ChannelsView(channels: seq<Bytes>)
                | OkView(message: Bytes)
                | ErrorView(message: Bytes)
                | OtherView(kind: byte, payload: Bytes)

  /** Two errors of the core have another text for the user. */
  function Friendly(message: Bytes): Bytes {
    if message == Ascii("user not found") || message == Ascii("invalid direct message")
    then Ascii("User not found. Check the username and try again.") else message
  }

  /** gateway_event; None where unpacking raises. */
  function GatewayEvent(f: Frame): Option<View> {
    if f.kind == Core.CHAT then
      match UnpackStrings(f.payload)
      case None => None
      case Some(vs) => if |vs| == 3 then Some(ChatView(vs[0], vs[1], vs[2])) else None
    else if f.kind == Core.DM_RECV then
      match UnpackStrings(f.payload)
      case None => None
      case Some(vs) => if |vs| == 2 then Some(DmView(vs[0], vs[1])) else None
    else if f.kind == Core.WHO_RESP then Some(UsersView(CoreText.SplitLines(f.payload)))
    else if f.kind == Core.LIST_RESP then Some(ChannelsView(CoreText.SplitLines(f.payload)))
    else if f.kind == Core.OK then Some(OkView(f.payload))
    else if f.kind == Core.ERROR then Some(ErrorView(Friendly(f.payload)))
    else Some(OtherView(f.kind, f.payload))
  }

  /** The gateway reads back the three strings of a broadcast and the two of a DM. */
  lemma FramesReadBack(vs: seq<Bytes>)
    requires Core.Written(vs, MAX_PAYLOAD).Some?
    ensures |vs| == 3 ==>
      GatewayEvent(Frame(Core.CHAT, Core.Written(vs, MAX_PAYLOAD).value)) == Some(ChatView(vs[0], vs[1], vs[2]))
    ensures |vs| == 2 ==>
      GatewayEvent(Frame(Core.DM_RECV, Core.Written(vs, MAX_PAYLOAD).value)) == Some(DmView(vs[0], vs[1]))
  {
    UnpackInvertsPack(vs);
  }

  /** The event of bridge.dfy a view stands for; what the pump does depends on no tag. */
  function AsEvent(v: View, tag: nat): Event {
    match v
    case ChatView(channel, sender, text) => ChatEvent(tag, channel, sender, text)
    case DmView(sender, text) => DmEvent(tag, sender, text)
    case OkView(message) => if message == Ascii("direct message sent") then DmSent(tag) else Other
    case ErrorView(_) => OtherError
    case _ => Other
  }

  function AsOp(s: Saved): Store.Op {
    match s
    case SavedChat(channel, sender, text) => Store.Post(channel, sender, text)
    case SavedDm(sender, recipient, text) => Store.Direct(sender, recipient, text)
  }

  /** The tables after the saves of one round, and whether none of them raised. */
  function Stored(t: Store.Rows, saves: seq<Saved>): Store.Rows {
    if saves == [] then t else Store.Apply(t, AsOp(saves[0]))
  }

  predicate StoreFails(t: Store.Rows, saves: seq<Saved>) {
    saves != [] && Store.Fails(t, AsOp(saves[0]))
  }

  // ---------------------------------------------------------------- the process

  class Gateway {
    var active: map<Bytes, nat>
    const db: Store.Database

    constructor (db: Store.Database)
      ensures active == map[] && this.db == db
    {
      active := map[];
      this.db := db;
    }

    /** The endpoint is entered. */
    method Enter(user: Bytes)
      modifies this
      ensures active == Entered(old(active), user)
    {
      var count := if user in active then active[user] else 0;
      active := active[user := count + 1];
    }

    /** The finally block. */
    method Leave(user: Bytes)
      modifies this
      ensures active == Left(old(active), user)
    {
      var count := if user in active then active[user] else 1;
      active := active[user := if count > 0 then count - 1 else 0];
      if active[user] == 0 {
        active := active - {user};
      }
    }
  }

  /** One /ws endpoint. */
  class WebSocketSession {
    const gateway: Gateway
    const user: Bytes
    var pending: seq<Pending>

    constructor (gateway: Gateway, user: Bytes)
      ensures this.gateway == gateway && this.user == user && pending == []
    {
      this.gateway := gateway;
      this.user := user;
      pending := [];
    }

    method Save(saved: Saved) returns (ok: bool)
      modifies gateway.db
      ensures gateway.db.rows == Stored(old(gateway.db.rows), [saved])
      ensures ok <==> !StoreFails(old(gateway.db.rows), [saved])
    {
      ok := Store.Transact(gateway.db, AsOp(saved));
    }

    /** One round of pump_core_to_ws; false where it raises, which ends the pump. */
    method PumpCore(f: Frame) returns (alive: bool)
      modifies this, gateway.db
      ensures GatewayEvent(f).None? ==> !alive && pending == old(pending) && gateway.db.rows == old(gateway.db.rows)
      ensures GatewayEvent(f).Some? ==>
        forall tag: nat ::
          var r := OnEvent(user, gateway.active, old(pending), AsEvent(GatewayEvent(f).value, tag));
          && pending == r.pending
          && gateway.db.rows == Stored(old(gateway.db.rows), r.saves)
          && (alive <==> !StoreFails(old(gateway.db.rows), r.saves))
    {
      var view := GatewayEvent(f);
      if view.None? {
        return false;
      }
      alive := true;
      match view.value {
        case ChatView(channel, sender, text) =>
          if sender == user {
            alive := Save(SavedChat(channel, sender, text));
          }
        case DmView(sender, text) =>
          if (if sender in gateway.active then gateway.active[sender] else 0) == 0 {
            alive := Save(SavedDm(sender, user, text));
          }
        case OkView(message) =>
          if message == Ascii("direct message sent") && pending != [] {
            var dm := pending[0];
            pending := pending[1..];
            alive := Save(SavedDm(user, dm.target, dm.text));
          }
        case ErrorView(_) =>
          if pending != [] {
            pending := pending[1..];
          }
        case _ =>
      }
    }

    /** One round of pump_ws_to_core: the frame for the core, or an error for the browser;
        false where saving the membership raises. */
    method PumpBrowser(m: Message) returns (frame: Option<Frame>, alive: bool)
      modifies this, gateway.db
      ensures frame == CorePayload(m)
      ensures frame.None? ==> alive && pending == old(pending) && gateway.db.rows == old(gateway.db.rows)
      ensures frame.Some? && m.kind == Some(Core.DM) ==>
        && m.to.Some? && m.text.Some? && alive && gateway.db.rows == old(gateway.db.rows)
        && pending == OnCommand(old(pending), DmCommand(Pending(m.to.value, m.text.value)))
      ensures frame.Some? && m.kind != Some(Core.DM) ==> pending == old(pending)
      ensures frame.Some? && (m.kind == Some(Core.JOIN) || m.kind == Some(Core.SWITCH)) ==>
        && m.channel.Some?
        && gateway.db.rows == Store.Apply(old(gateway.db.rows), Store.Join(user, m.channel.value))
        && (Store.TablesOk(old(gateway.db.rows)) ==> alive)
      ensures frame.Some? && m.kind != Some(Core.JOIN) && m.kind != Some(Core.SWITCH) ==>
        alive && gateway.db.rows == old(gateway.db.rows)
    {
      frame := CorePayload(m);
      alive := true;
      if frame.Some? {
        if m.kind == Some(Core.JOIN) || m.kind == Some(Core.SWITCH) {
          if Store.TablesOk(gateway.db.rows) {
            Store.FailsExactlyOnNewSelf(gateway.db.rows, Store.Join(user, m.channel.value));
          }
          alive := Store.Transact(gateway.db, Store.Join(user, m.channel.value));
        } else if m.kind == Some(Core.DM) {
          pending := pending + [Pending(m.to.value, m.text.value)];
        }
      }
    }
  }
}
