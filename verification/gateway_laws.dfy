/** What the gateway lets through and what it shows: which commands of a browser pass, what
    the core then reads and does, and what the browser sees of the core's answers. */
module GatewayLaws {
  import opened Bytes
  import opened Wire
  import opened Bridge
  import opened GatewayProcess
  import Core
  import CoreDelivery
  import CoreInvariant
  import CoreLaws
  import CoreOutcomes
  import CoreReplies
  import CoreText

  // ---------------------------------------------------------------- commands

  predicate Space(c: byte) {
    c as int in {9, 10, 11, 12, 13, 28, 29, 30, 31, 32}
  }

  function StripFront(b: Bytes): Bytes {
    if b != [] && Space(b[0]) then StripFront(b[1..]) else b
  }

  function StripBack(b: Bytes): Bytes {
    if b != [] && Space(b[|b| - 1]) then StripBack(b[..|b| - 1]) else b
  }

  /** str.strip on ASCII text. */
  function Strip(b: Bytes): Bytes {
    StripBack(StripFront(b))
  }

  lemma {:induction false} FrontIsBlank(b: Bytes)
    ensures StripFront(b) == [] <==> Blank(b)
  {
    if b != [] && Space(b[0]) { FrontIsBlank(b[1..]); }
  }

  lemma {:induction false} BackIsBlank(b: Bytes)
    requires b != [] && !Space(b[0])
    ensures StripBack(b) != []
  {
    if Space(b[|b| - 1]) { BackIsBlank(b[..|b| - 1]); }
  }

  lemma {:induction false} FrontHasNoSpace(b: Bytes)
    ensures StripFront(b) != [] ==> !Space(StripFront(b)[0])
  {
    if b != [] && Space(b[0]) { FrontHasNoSpace(b[1..]); }
  }

  lemma BlankIsStripped(b: Bytes)
    ensures Blank(b) <==> Strip(b) == []
  {
    FrontIsBlank(b);
    FrontHasNoSpace(b);
    if StripFront(b) != [] { BackIsBlank(StripFront(b)); }
  }

  /** A field that is a string of 1 to 65535 bytes. */
  predicate Given(field: Option<Bytes>) {
    field.Some? && 1 <= |field.value| <= 65535
  }

  /** The strings a command of its kind carries, whether or not it passes. */
  function Carried(m: Message): seq<Bytes> {
    if m.kind.None? then []
    else if m.kind.value in {Core.JOIN, Core.SWITCH, Core.LEAVE} && m.channel.Some? then [m.channel.value]
    else if m.kind == Some(Core.SAY) && m.text.Some? then [m.text.value]
    else if m.kind == Some(Core.NICK) && m.username.Some? then [m.username.value]
    else if m.kind == Some(Core.DM) && m.to.Some? && m.text.Some? then [m.to.value, m.text.value]
    else []
  }

  /** What core_payload_for_command asks of each command. */
  predicate Complete(m: Message) {
    && m.kind.Some?
    && var kind := m.kind.value;
    || kind in {Core.WHO, Core.LIST, Core.QUIT, Core.STATS}
    || (kind in {Core.JOIN, Core.SWITCH, Core.LEAVE} && Given(m.channel))
    || (kind == Core.SAY && Given(m.text))
    || (kind == Core.NICK && Given(m.username))
    || (kind == Core.DM && m.to.Some? && NameOk(m.to.value, 1, 32) && Given(m.text) && Strip(m.text.value) != [])
  }

  /** A command passes exactly when its own fields are there and long and short enough; a DM
      moreover needs a well-formed target and a text that is not blank. It goes to the core
      under its own kind, and the core finds exactly its fields in it. */
  lemma CommandPasses(m: Message)
    ensures CorePayload(m).Some? <==> Complete(m)
    ensures CorePayload(m).Some? ==>
      && CorePayload(m).value.kind == m.kind.value
      && UnpackStrings(CorePayload(m).value.payload) == Some(Carried(m))
  {
    if m.text.Some? { BlankIsStripped(m.text.value); }
    var fields := Fields(m);
    if fields.Some? {
      FieldsAreCarried(m);
      if Packable(fields.value) { UnpackInvertsPack(fields.value); }
    }
  }

  lemma FieldsAreCarried(m: Message)
    requires Fields(m).Some?
    ensures Fields(m).value == Carried(m)
    ensures Packable(Carried(m)) <==> forall k :: 0 <= k < |Carried(m)| ==> |Carried(m)[k]| <= 65535
    ensures |Carried(m)| == 1 ==> (Packable(Carried(m)) <==> |Carried(m)[0]| <= 65535)
    ensures |Carried(m)| == 2 ==> (Packable(Carried(m)) <==> |Carried(m)[0]| <= 65535 && |Carried(m)[1]| <= 65535)
  {
  }

  /** A text of 1 to 1024 bytes that somebody on a channel types, and that does not start
      with a NUL, is broadcast to that channel. */
  lemma TypedSayIsBroadcast(m: Message, s: Core.State, i: nat)
    requires m.kind == Some(Core.SAY) && m.text.Some? && 1 <= |m.text.value| <= 1024 && m.text.value[0] != 0
    requires CoreDelivery.Sound(s) && Core.Live(s, i) && s.clients[i].registered && s.clients[i].active != []
    ensures CorePayload(m).Some?
    ensures var c, text, r := s.clients[i], CStr(m.text.value), Core.HandleFrame(s, i, CorePayload(m).value);
      && Packable([c.active, c.username, text])
      && CoreOutcomes.Fanned(s, r, CoreOutcomes.Audience(s, c.active), 128, CoreOutcomes.ChatFrame(c, text))
      && r.log == s.log + [Core.Chat(c.active, c.username, text)]
  {
    CommandPasses(m);
    SayReachesTheCore(m);
    CoreOutcomes.SayOutcome(s, i, CorePayload(m).value.payload, CStr(m.text.value));
  }

  /** A DM of 1 to 1024 bytes, not blank and not starting with a NUL, to a registered user is
      relayed to that user under the sender's name, or drops that user. */
  lemma TypedDmIsRelayed(m: Message, s: Core.State, i: nat)
    requires Complete(m) && m.kind == Some(Core.DM) && |m.text.value| <= 1024 && m.text.value[0] != 0
    requires CoreDelivery.Sound(s) && Core.Live(s, i) && s.clients[i].registered
    requires CoreReplies.Online(s, m.to.value)
    ensures CorePayload(m).Some?
    ensures var target, vs := Core.FindUser(s.clients, m.to.value), [s.clients[i].username, CStr(m.text.value)];
      && 0 <= target && s.clients[target].username == m.to.value
      && Packable(vs) && |PackStrings(vs)| <= MAX_PAYLOAD
      && CoreLaws.Relayed(s, i, target, Frame(Core.DM_RECV, PackStrings(vs)),
                          Core.HandleFrame(s, i, CorePayload(m).value))
  {
    CommandPasses(m);
    DmReachesTheCore(m);
    Core.HandlerOf(s, i, CorePayload(m).value);
    CoreLaws.DirectMessageOutcome(s, i, CorePayload(m).value.payload);
  }

  // ---------------------------------------------------------------- events

  /** The text of a frame as the browser is shown it: lists line by line, replies and errors
      as they are, but for two errors about DMs; and what the pump takes for the confirmation
      of a DM, or for an error. */
  lemma TextsAreShown(names: seq<Bytes>, text: Bytes, tag: nat)
    requires CoreText.OneLiners(names)
    ensures GatewayEvent(Frame(106, CoreText.JoinLines(names))) == Some(UsersView(names))
    ensures GatewayEvent(Frame(107, CoreText.JoinLines(names))) == Some(ChannelsView(names))
    ensures GatewayEvent(Frame(101, text)) == Some(OkView(text))
    ensures GatewayEvent(Frame(102, Ascii("user not found"))) ==
            Some(ErrorView(Ascii("User not found. Check the username and try again.")))
    ensures GatewayEvent(Frame(102, Ascii("invalid direct message"))) ==
            Some(ErrorView(Ascii("User not found. Check the username and try again.")))
    ensures text != Ascii("user not found") && text != Ascii("invalid direct message") ==>
              GatewayEvent(Frame(102, text)) == Some(ErrorView(text))
    ensures GatewayEvent(Frame(105, text)) == Some(OtherView(105, text))
    ensures GatewayEvent(Frame(108, text)) == Some(OtherView(108, text))
    ensures AsEvent(GatewayEvent(Frame(101, text)).value, tag) ==
            if text == Ascii("direct message sent") then DmSent(tag) else Other
    ensures AsEvent(GatewayEvent(Frame(102, text)).value, tag) == OtherError
  {
    CoreText.SplitInvertsJoin(names);
  }

  /** Who asks WHO on a channel, and is not dropped, is shown the users on that channel. */
  lemma WhoIsShown(s: Core.State, i: nat)
    requires CoreInvariant.Good(s) && Core.Live(s, i) && s.clients[i].active != []
    requires Core.Live(Core.HandleFrame(s, i, Frame(Core.WHO, [])), i)
    requires |CoreText.JoinLines(CoreReplies.Roster(s, s.clients[i].active, 128))| <= 4095
    ensures var n, r := |s.clients[i].history.accepted|, Core.HandleFrame(s, i, Frame(Core.WHO, []));
      && |r.clients[i].history.accepted| == n + 1
      && GatewayEvent(r.clients[i].history.accepted[n]) ==
         Some(UsersView(CoreReplies.Roster(s, s.clients[i].active, 128)))
  {
    CoreReplies.WhoListsTheAudience(s, i);
  }

  /** Who asks LIST, and is not dropped, is shown the table of channels. */
  lemma ListIsShown(s: Core.State, i: nat)
    requires CoreInvariant.Good(s) && Core.Live(s, i)
    requires Core.Live(Core.HandleFrame(s, i, Frame(Core.LIST, [])), i)
    ensures var n, r := |s.clients[i].history.accepted|, Core.HandleFrame(s, i, Frame(Core.LIST, []));
      && |r.clients[i].history.accepted| == n + 1
      && GatewayEvent(r.clients[i].history.accepted[n]) == Some(ChannelsView(s.channels))
  {
    Core.HandlerOf(s, i, Frame(Core.LIST, []));
    CoreReplies.ListReplies(s, i);
  }
}
