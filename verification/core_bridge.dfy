/** The core behind the bridge is the core of core.dfy: whatever frame of a registered client
    it handles, the bridge of bridge.dfy can take core steps of its own that lead to the
    same names and the same frames for everybody, up to how much of a closed connection's
    output still arrives. */
module CoreBridge {
  import opened Bytes
  import opened Wire
  import opened Bridge
  import opened BridgeInvariant
  import opened BridgePairing
  import C = Core
  import CoreClosed
  import CoreDelivery
  import CoreInvariant
  import CoreLaws

  // ---------------------------------------------------------------- the relation

  function Confirmation(): Frame {
    Frame(C.OK, Ascii("direct message sent"))
  }

  /** The frame is one the gateway sees as this event. */
  predicate Looks(e: Event, f: Frame) {
    match e
    case ChatEvent(_, channel, sender, text) => CoreDelivery.DecodeChat(f) == Some(C.Chat(channel, sender, text))
    case DmEvent(_, sender, text) => f.kind == C.DM_RECV && UnpackStrings(f.payload) == Some([sender, text])
    case DmSent(_) => f == Confirmation()
    case DmRefused(_) => f.kind == C.ERROR
    case OtherError => f.kind == C.ERROR
    case Other => f.kind !in [C.CHAT, C.DM_RECV, C.ERROR] && f != Confirmation()
  }

  predicate Like(es: seq<Event>, fs: seq<Frame>) {
    |es| == |fs| && forall k :: 0 <= k < |es| ==> Looks(es[k], fs[k])
  }

  /** A slot and a session are the same client: the name is the same, and everything queued
      since the session began is what the core has sent to it. */
  predicate SlotOk(c: C.Conn, x: Session, base: nat) {
    && x.connected && x.name == c.username
    && base <= |c.history.accepted|
    && Like(Stream(x), c.history.accepted[base..])
  }

  /** at says which session a slot is, base where its stream begins. */
  predicate Mirrors(cs: seq<C.Conn>, w: World, at: seq<nat>, base: seq<nat>) {
    && |at| == |base| == |cs|
    && (forall i :: 0 <= i < |cs| && C.Registered(cs[i]) ==>
          at[i] < |w.sessions| && SlotOk(cs[i], w.sessions[at[i]], base[i]))
    && (forall i, j :: 0 <= i < j < |cs| && C.Registered(cs[i]) && C.Registered(cs[j]) ==> at[i] != at[j])
    && (forall k :: 0 <= k < |w.sessions| && w.sessions[k].connected ==> Behind(cs, at, k))
  }

  /** Some registered client is session k. */
  predicate Behind(cs: seq<C.Conn>, at: seq<nat>, k: nat)
    requires |at| == |cs|
  {
    exists i :: 0 <= i < |cs| && C.Registered(cs[i]) && at[i] == k
  }

  predicate CoreAction(a: Action) {
    || a.Deliver? || a.Refuse? || a.Overflow? || a.Say? || a.Answer? || a.Nick? || a.Protest? || a.Notify? || a.Drop?
    || a.Open?
  }

  /** The core may take these steps from w, and then the world is v. */
  ghost predicate CoreDoes(w: World, actions: seq<Action>, v: World)
    decreases |actions|
  {
    if actions == [] then v == w
    else CoreAction(actions[0]) && Enabled(w, actions[0]) && CoreDoes(Step(w, actions[0]), actions[1..], v)
  }

  /** keep says of each connection how much of its output still arrives if it is closed. */
  predicate Uses(a: Action, keep: nat -> nat) {
    match a
    case Drop(j, n) => n == keep(j)
    case Overflow(_, to, n) => n == keep(to)
    case Deliver(i, _, dropped) => dropped.Some? ==> dropped.value == keep(i)
    case Say(_, _, _, drops) => forall j :: j in drops ==> drops[j] == keep(j)
    case _ => true
  }

  /** Steps by which the core answers the next command of session k. */
  predicate Consuming(a: Action, k: nat, keep: nat -> nat) {
    (a.Deliver? || a.Refuse? || a.Overflow? || a.Say? || a.Answer? || a.Nick?) && a.i == k && Uses(a, keep)
  }

  /** Steps in which it does something beside its commands. */
  predicate Aside(a: Action, keep: nat -> nat) {
    (a.Protest? || a.Notify? || a.Drop?) && Uses(a, keep)
  }

  predicate Asides(actions: seq<Action>, keep: nat -> nat) {
    forall k :: 0 <= k < |actions| ==> Aside(actions[k], keep)
  }

  /** Exactly one command is taken, the next one of session k, and that first. */
  predicate Spends(actions: seq<Action>, k: nat, keep: nat -> nat) {
    actions != [] && Consuming(actions[0], k, keep) && Asides(actions[1..], keep)
  }

  lemma OneStep(w: World, a: Action)
    requires CoreAction(a) && Enabled(w, a)
    ensures CoreDoes(w, [a], Step(w, a))
  {
    assert [a][1..] == [];
  }

  lemma TwoSteps(w: World, a: Action, b: Action)
    requires CoreAction(a) && Enabled(w, a) && CoreAction(b) && Enabled(Step(w, a), b)
    ensures CoreDoes(w, [a, b], Step(Step(w, a), b))
  {
    assert [a, b][1..] == [b];
    OneStep(Step(w, a), b);
  }

  // ---------------------------------------------------------------- one slot

  lemma SlotPut(c: C.Conn, x: Session, base: nat, e: Event, f: Frame)
    requires SlotOk(c, x, base) && Looks(e, f) && |f.payload| <= MAX_PAYLOAD
    ensures SlotOk(C.Push(c, f), Put(x, e), base)
  {
    var fs := c.history.accepted;
    assert (fs + [f])[base..] == fs[base..] + [f];
    assert Stream(Put(x, e)) == Stream(x) + [e];
  }

  lemma SlotTake(c: C.Conn, x: Session, base: nat)
    requires SlotOk(c, x, base) && x.toCore != []
    ensures SlotOk(c, Take(x), base)
  {
    assert Stream(Take(x)) == Stream(x);
  }

  /** Only client i changes: it is gone, or still the session it was. */
  lemma OneChanges(cs: seq<C.Conn>, w: World, at: seq<nat>, base: seq<nat>, i: nat, c: C.Conn, v: World)
    requires Mirrors(cs, w, at, base) && i < |cs| && C.Registered(cs[i])
    requires |v.sessions| == |w.sessions|
    requires forall j :: 0 <= j < |w.sessions| && j != at[i] ==> v.sessions[j] == w.sessions[j]
    requires if c.fd < 0 then !v.sessions[at[i]].connected
             else C.Registered(c) && SlotOk(c, v.sessions[at[i]], base[i])
    ensures Mirrors(cs[i := c], v, at, base)
  {
    var rs := cs[i := c];
    forall k | 0 <= k < |v.sessions| && v.sessions[k].connected ensures Behind(rs, at, k) {
      if k == at[i] {
        assert C.Registered(rs[i]);
      } else {
        var j :| 0 <= j < |cs| && C.Registered(cs[j]) && at[j] == k;
        assert rs[j] == cs[j];
      }
    }
  }

  /** What became of slot j: it is gone on both sides, or in order. */
  predicate InOrder(c: C.Conn, x: Session, base: nat) {
    if C.Registered(c) then SlotOk(c, x, base) else !x.connected
  }

  lemma Reassembled(cs: seq<C.Conn>, w: World, at: seq<nat>, base: seq<nat>, rs: seq<C.Conn>, v: World)
    requires Mirrors(cs, w, at, base) && |rs| == |cs| && |v.sessions| == |w.sessions|
    requires forall j :: 0 <= j < |cs| && C.Registered(rs[j]) ==> C.Registered(cs[j])
    requires forall j :: 0 <= j < |cs| && C.Registered(cs[j]) ==> InOrder(rs[j], v.sessions[at[j]], base[j])
    requires forall k :: 0 <= k < |w.sessions| && v.sessions[k].connected ==> w.sessions[k].connected
    ensures Mirrors(rs, v, at, base)
  {
    forall j | 0 <= j < |rs| && C.Registered(rs[j])
      ensures at[j] < |v.sessions| && SlotOk(rs[j], v.sessions[at[j]], base[j])
    {
      assert InOrder(rs[j], v.sessions[at[j]], base[j]);
    }
    forall k | 0 <= k < |v.sessions| && v.sessions[k].connected ensures Behind(rs, at, k) {
      assert Behind(cs, at, k);
      var n :| 0 <= n < |cs| && C.Registered(cs[n]) && at[n] == k;
      assert InOrder(rs[n], v.sessions[at[n]], base[n]);
    }
  }

  // ---------------------------------------------------------------- one reply

  /** A command that changes only its client and is answered by one frame, for which the
      client may be dropped. */
  ghost predicate OneReply(cs: seq<C.Conn>, i: nat, f: Frame, rs: seq<C.Conn>)
    requires i < |cs|
  {
    exists c: C.Conn :: SameClient(cs[i], c) && Replied(cs, i, c, f, rs)
  }

  predicate SameClient(b: C.Conn, c: C.Conn) {
    && c.fd >= 0 && c.registered == b.registered && c.username == b.username
    && c.history.accepted == b.history.accepted
  }

  predicate Replied(cs: seq<C.Conn>, i: nat, c: C.Conn, f: Frame, rs: seq<C.Conn>)
    requires i < |cs|
  {
    rs == cs[i := C.Blank()] || (|f.payload| <= MAX_PAYLOAD && rs == cs[i := C.Push(c, f)])
  }

  predicate ReplyAction(a: Action) {
    a.Refuse? || a.Answer? || a.Protest? || a.Notify?
  }

  /** The event such a step puts on the stream of its session. */
  function ReplyEvent(x: Session, a: Action): Event
    requires ReplyAction(a) && (a.Refuse? ==> x.toCore != [] && x.toCore[0].DmCommand?)
  {
    if a.Refuse? then DmRefused(x.toCore[0].dm)
    else if a.Notify? || (a.Answer? && !a.error) then Other
    else OtherError
  }

  lemma ReplyStep(w: World, a: Action)
    requires ReplyAction(a) && Enabled(w, a)
    ensures var x := w.sessions[a.i];
            Step(w, a) ==
            With(w, a.i, Put(if a.Refuse? || a.Answer? then Take(x) else x, ReplyEvent(x, a)))
  {
  }

  /** How the bridge takes such a command: the reply, and a drop if the client is gone. */
  function Replying(a: Action, gone: bool, i: nat, keep: nat -> nat): seq<Action> {
    if gone then [a, Drop(i, keep(i))] else [a]
  }

  lemma ReplyIsBridged(cs: seq<C.Conn>, w: World, at: seq<nat>, base: seq<nat>, i: nat, f: Frame,
                       rs: seq<C.Conn>, a: Action, keep: nat -> nat)
    returns (actions: seq<Action>, v: World)
    requires Mirrors(cs, w, at, base) && i < |cs| && C.Registered(cs[i]) && OneReply(cs, i, f, rs)
    requires ReplyAction(a) && a.i == at[i] && Enabled(w, a) && Looks(ReplyEvent(w.sessions[at[i]], a), f)
    ensures if a.Protest? || a.Notify? then Asides(actions, keep) else Spends(actions, at[i], keep)
    ensures actions != [] && actions[0] == a
    ensures CoreDoes(w, actions, v) && Mirrors(rs, v, at, base)
  {
    var c: C.Conn :| SameClient(cs[i], c) && Replied(cs, i, c, f, rs);
    actions := Replying(a, rs == cs[i := C.Blank()], at[i], keep);
    if rs == cs[i := C.Blank()] {
      v := Step(Step(w, a), Drop(at[i], keep(at[i])));
      ReplyIsCut(cs, w, at, base, i, a, keep);
    } else {
      v := Step(w, a);
      OneStep(w, a);
      ReplyIsPut(cs, w, at, base, i, c, f, a);
    }
  }

  lemma ReplyIsCut(cs: seq<C.Conn>, w: World, at: seq<nat>, base: seq<nat>, i: nat, a: Action, keep: nat -> nat)
    requires Mirrors(cs, w, at, base) && i < |cs| && C.Registered(cs[i])
    requires ReplyAction(a) && a.i == at[i] && Enabled(w, a)
    ensures Enabled(Step(w, a), Drop(at[i], keep(at[i])))
    ensures var v := Step(Step(w, a), Drop(at[i], keep(at[i])));
            CoreDoes(w, [a, Drop(at[i], keep(at[i]))], v) && Mirrors(cs[i := C.Blank()], v, at, base)
  {
    ReplyStep(w, a);
    TwoSteps(w, a, Drop(at[i], keep(at[i])));
    OneChanges(cs, w, at, base, i, C.Blank(), Step(Step(w, a), Drop(at[i], keep(at[i]))));
  }

  lemma ReplyIsPut(cs: seq<C.Conn>, w: World, at: seq<nat>, base: seq<nat>, i: nat, c: C.Conn, f: Frame, a: Action)
    requires Mirrors(cs, w, at, base) && i < |cs| && C.Registered(cs[i])
    requires SameClient(cs[i], c) && |f.payload| <= MAX_PAYLOAD
    requires ReplyAction(a) && a.i == at[i] && Enabled(w, a) && Looks(ReplyEvent(w.sessions[at[i]], a), f)
    ensures Mirrors(cs[i := C.Push(c, f)], Step(w, a), at, base)
  {
    var x := w.sessions[at[i]];
    var y := if a.Refuse? || a.Answer? then Take(x) else x;
    ReplyStep(w, a);
    assert SlotOk(c, x, base[i]);
    if a.Refuse? || a.Answer? { SlotTake(c, x, base[i]); }
    SlotPut(c, y, base[i], ReplyEvent(x, a), f);
    OneChanges(cs, w, at, base, i, C.Push(c, f), Step(w, a));
  }

  /** A connection is closed, for whatever reason. */
  lemma CloseIsBridged(cs: seq<C.Conn>, w: World, at: seq<nat>, base: seq<nat>, i: nat, keep: nat -> nat)
    requires Mirrors(cs, w, at, base) && i < |cs| && C.Registered(cs[i])
    ensures Enabled(w, Drop(at[i], keep(at[i])))
    ensures CoreDoes(w, [Drop(at[i], keep(at[i]))], Step(w, Drop(at[i], keep(at[i]))))
    ensures Mirrors(cs[i := C.Blank()], Step(w, Drop(at[i], keep(at[i]))), at, base)
  {
    OneStep(w, Drop(at[i], keep(at[i])));
    OneChanges(cs, w, at, base, i, C.Blank(), Step(w, Drop(at[i], keep(at[i]))));
  }

  lemma DeliverClients(t: C.State, i: nat, f: Frame)
    requires C.Live(t, i)
    ensures var rs := C.Deliver(t, i, f).clients;
            || rs == t.clients[i := C.Blank()]
            || (|f.payload| <= MAX_PAYLOAD && rs == t.clients[i := C.Push(t.clients[i], f)])
  {
  }

  /** c: the client when its reply is queued. */
  lemma DeliverReplies(cs: seq<C.Conn>, t: C.State, i: nat, c: C.Conn, f: Frame)
    requires i < |cs| && t.clients == cs[i := c] && SameClient(cs[i], c)
    ensures OneReply(cs, i, f, C.Deliver(t, i, f).clients)
  {
    DeliverClients(t, i, f);
    assert t.clients[i := C.Blank()] == cs[i := C.Blank()];
    if |f.payload| <= MAX_PAYLOAD { assert t.clients[i := C.Push(c, f)] == cs[i := C.Push(c, f)]; }
    assert Replied(cs, i, c, f, C.Deliver(t, i, f).clients);
  }

  /** The reply of a command that leaves its client's session alone. */
  lemma PlainReplies(s: C.State, i: nat, f: Frame)
    requires C.Live(s, i)
    ensures OneReply(s.clients, i, f, C.Deliver(s, i, f).clients)
  {
    assert s.clients[i := s.clients[i]] == s.clients;
    DeliverReplies(s.clients, s, i, s.clients[i], f);
  }

  // ---------------------------------------------------------------- direct messages

  /** The command and the frame that carries it: DM and SAY are read as the gateway meant. */
  predicate Carries(c: Command, f: Frame) {
    match c
    case DmCommand(dm) =>
      && f.kind == C.DM
      && (C.ReadDirect(f.payload).Some? ==> C.ReadDirect(f.payload).value == C.Direct(CStr(dm.target), CStr(dm.text)))
    case SayCommand(text) =>
      && f.kind == C.SAY
      && (C.ReadText(f.payload).Some? ==> C.ReadText(f.payload).value == CStr(text))
    case OtherCommand => f.kind != C.DM && f.kind != C.SAY
  }

  /** Session at[i] has sent command c, and it is the next for the core. */
  predicate Next(w: World, at: seq<nat>, i: nat, f: Frame) {
    && i < |at| && Connected(w, at[i]) && w.sessions[at[i]].toCore != []
    && Carries(w.sessions[at[i]].toCore[0], f)
  }

  lemma RefusalIsBridged(s: C.State, i: nat, text: string, w: World, at: seq<nat>, base: seq<nat>, keep: nat -> nat)
    returns (actions: seq<Action>, v: World)
    requires CoreInvariant.Good(s) && C.Live(s, i) && s.clients[i].registered && Mirrors(s.clients, w, at, base)
    requires DmAtHead(w, at[i])
    ensures Spends(actions, at[i], keep)
    ensures actions[0].Refuse?
    ensures CoreDoes(w, actions, v) && Mirrors(C.Say(s, i, C.ERROR, text).clients, v, at, base)
  {
    var f := Frame(C.ERROR, Ascii(text));
    PlainReplies(s, i, f);
    actions, v := ReplyIsBridged(s.clients, w, at, base, i, f, C.Deliver(s, i, f).clients, Refuse(at[i]), keep);
  }

  /** Client i's slot after the relay, if it is still there. */
  lemma RelayedSlot(s: C.State, i: nat, k: nat, f: Frame, w: World, at: seq<nat>, base: seq<nat>,
                    dropped: Option<nat>, j: nat)
    requires Mirrors(s.clients, w, at, base) && i < |s.clients| && k < |s.clients| && j < |s.clients|
    requires C.Registered(s.clients[i]) && C.Registered(s.clients[k]) && C.Registered(s.clients[j])
    requires Addressed(w, at[i], at[k]) && |f.payload| <= MAX_PAYLOAD
    requires Looks(DmEvent(|w.deliveries|, w.sessions[at[i]].name, CStr(w.sessions[at[i]].toCore[0].dm.text)), f)
    ensures var v := Delivered(w, at[i], at[k], dropped);
            var c := if j == k then C.Push(s.clients[j], f) else s.clients[j];
            && at[j] < |v.sessions|
            && (j != i ==> SlotOk(c, v.sessions[at[j]], base[j]))
            && (j == i && dropped.None? ==> SlotOk(C.Push(c, Confirmation()), v.sessions[at[j]], base[j]))
            && (j == i && dropped.Some? ==> !v.sessions[at[j]].connected)
  {
    var e := DmEvent(|w.deliveries|, w.sessions[at[i]].name, CStr(w.sessions[at[i]].toCore[0].dm.text));
    var c := if j == k then C.Push(s.clients[j], f) else s.clients[j];
    var y := if j == k then Put(w.sessions[at[j]], e) else w.sessions[at[j]];
    DeliveredSession(w, at[i], at[k], dropped, at[j]);
    assert at[j] == at[i] <==> j == i;
    assert at[j] == at[k] <==> j == k;
    if j == k { SlotPut(s.clients[j], w.sessions[at[j]], base[j], e, f); }
    if j == i && dropped.None? {
      SlotTake(c, y, base[j]);
      SlotPut(c, Take(y), base[j], DmSent(|w.deliveries|), Confirmation());
    }
  }

  lemma RelayIsBridged(s: C.State, i: nat, k: nat, f: Frame, w: World, at: seq<nat>, base: seq<nat>,
                       rs: seq<C.Conn>, dropped: Option<nat>, keep: nat -> nat)
    returns (actions: seq<Action>, v: World)
    requires Mirrors(s.clients, w, at, base) && i < |s.clients| && k < |s.clients|
    requires C.Registered(s.clients[i]) && C.Registered(s.clients[k])
    requires Addressed(w, at[i], at[k]) && |f.payload| <= MAX_PAYLOAD
    requires dropped.Some? ==> dropped.value == keep(at[i])
    requires Looks(DmEvent(|w.deliveries|, w.sessions[at[i]].name, CStr(w.sessions[at[i]].toCore[0].dm.text)), f)
    requires var mid := s.clients[k := C.Push(s.clients[k], f)];
             rs == mid[i := if dropped.None? then C.Push(mid[i], Confirmation()) else C.Blank()]
    ensures Spends(actions, at[i], keep)
    ensures actions[0].Deliver?
    ensures CoreDoes(w, actions, v) && Mirrors(rs, v, at, base)
  {
    var a := Deliver(at[i], at[k], dropped);
    actions, v := [a], Delivered(w, at[i], at[k], dropped);
    OneStep(w, a);
    DeliveredStatus(w, at[i], at[k], dropped);
    forall j | 0 <= j < |rs| && C.Registered(s.clients[j]) ensures InOrder(rs[j], v.sessions[at[j]], base[j]) {
      RelayedSlot(s, i, k, f, w, at, base, dropped, j);
    }
    forall j | 0 <= j < |w.sessions| && v.sessions[j].connected ensures w.sessions[j].connected {
      RelayConnects(w, at[i], at[k], dropped, j);
    }
    Reassembled(s.clients, w, at, base, rs, v);
  }

  lemma RelayConnects(w: World, i: nat, to: nat, dropped: Option<nat>, j: nat)
    requires Addressed(w, i, to) && j < |Delivered(w, i, to, dropped).sessions|
    ensures j < |w.sessions|
    ensures Delivered(w, i, to, dropped).sessions[j].connected ==> w.sessions[j].connected
  {
    DeliveredStatus(w, i, to, dropped);
    DeliveredSession(w, i, to, dropped, j);
  }

  lemma OverflowIsBridged(cs: seq<C.Conn>, i: nat, k: nat, w: World, at: seq<nat>, base: seq<nat>, keep: nat -> nat)
    requires Mirrors(cs, w, at, base) && i < |cs| && k < |cs| && C.Registered(cs[i]) && C.Registered(cs[k])
    requires Addressed(w, at[i], at[k])
    ensures var a := Overflow(at[i], at[k], keep(at[k]));
            Enabled(w, a) && CoreDoes(w, [a], Step(w, a)) && Mirrors(cs[k := C.Blank()], Step(w, a), at, base)
  {
    var a := Overflow(at[i], at[k], keep(at[k]));
    OneStep(w, a);
    TakenMirrors(cs, w, at, base, i);
    OneChanges(cs, Taken(w, at[i]), at, base, k, C.Blank(), Step(w, a));
  }

  /** DM: refused, delivered with or without the sender surviving its confirmation, or
      swallowed by a target without room. */
  lemma DmIsBridged(s: C.State, i: nat, f: Frame, w: World, at: seq<nat>, base: seq<nat>, keep: nat -> nat)
    returns (actions: seq<Action>, v: World)
    requires CoreDelivery.Sound(s) && C.Live(s, i) && s.clients[i].registered && Mirrors(s.clients, w, at, base)
    requires Next(w, at, i, f) && f.kind == C.DM
    ensures Spends(actions, at[i], keep)
    ensures !actions[0].Say? && (actions[0].Deliver? <==> CoreClosed.Counts(s, i, f.payload))
    ensures CoreDoes(w, actions, v) && Mirrors(C.HandleDm(s, i, f.payload).clients, v, at, base)
  {
    var dm := C.ReadDirect(f.payload);
    if dm.None? {
      actions, v := RefusalIsBridged(s, i, "invalid direct message", w, at, base, keep);
    } else if C.FindUser(s.clients, dm.value.target) < 0 {
      actions, v := RefusalIsBridged(s, i, "user not found", w, at, base, keep);
    } else {
      actions, v := FoundIsBridged(s, i, f, w, at, base, keep);
    }
  }

  lemma DmFrameLooks(tag: nat, sender: Bytes, text: Bytes, g: Frame)
    requires C.Written([sender, text], MAX_PAYLOAD).Some?
    requires g == Frame(C.DM_RECV, C.Written([sender, text], MAX_PAYLOAD).value)
    ensures Looks(DmEvent(tag, sender, text), g)
  {
    UnpackInvertsPack([sender, text]);
  }

  /** What the target had room for is delivered, what it had no room for is an overflow. */
  lemma RelayedIsBridged(s: C.State, i: nat, k: nat, g: Frame, r: C.State, w: World, at: seq<nat>, base: seq<nat>,
                         keep: nat -> nat)
    returns (actions: seq<Action>, v: World)
    requires Mirrors(s.clients, w, at, base) && i < |s.clients| && k < |s.clients|
    requires C.Registered(s.clients[i]) && C.Registered(s.clients[k])
    requires Addressed(w, at[i], at[k]) && |g.payload| <= MAX_PAYLOAD && CoreLaws.Relayed(s, i, k, g, r)
    requires Looks(DmEvent(|w.deliveries|, w.sessions[at[i]].name, CStr(w.sessions[at[i]].toCore[0].dm.text)), g)
    ensures Spends(actions, at[i], keep)
    ensures actions[0].Deliver? <==> CoreInvariant.Takes(s, k, g)
    ensures !actions[0].Say?
    ensures CoreDoes(w, actions, v) && Mirrors(r.clients, v, at, base)
  {
    if CoreInvariant.Takes(s, k, g) {
      var dropped := if r.clients[i] == C.Blank() then Some(keep(at[i])) else None;
      actions, v := RelayIsBridged(s, i, k, g, w, at, base, r.clients, dropped, keep);
    } else {
      OverflowIsBridged(s.clients, i, k, w, at, base, keep);
      actions, v := [Overflow(at[i], at[k], keep(at[k]))], Step(w, Overflow(at[i], at[k], keep(at[k])));
    }
  }

  lemma FoundIsBridged(s: C.State, i: nat, f: Frame, w: World, at: seq<nat>, base: seq<nat>, keep: nat -> nat)
    returns (actions: seq<Action>, v: World)
    requires CoreDelivery.Sound(s) && C.Live(s, i) && s.clients[i].registered && Mirrors(s.clients, w, at, base)
    requires Next(w, at, i, f) && f.kind == C.DM
    requires C.ReadDirect(f.payload).Some? && C.FindUser(s.clients, C.ReadDirect(f.payload).value.target) >= 0
    ensures Spends(actions, at[i], keep)
    ensures !actions[0].Say? && (actions[0].Deliver? <==> CoreClosed.Counts(s, i, f.payload))
    ensures CoreDoes(w, actions, v) && Mirrors(C.HandleDm(s, i, f.payload).clients, v, at, base)
  {
    CoreLaws.DirectMessageOutcome(s, i, f.payload);
    var dm := C.ReadDirect(f.payload).value;
    var k := C.FindUser(s.clients, dm.target);
    var vs := [s.clients[i].username, dm.text];
    var g := Frame(C.DM_RECV, C.Written(vs, MAX_PAYLOAD).value);
    DmFrameLooks(|w.deliveries|, vs[0], vs[1], g);
    actions, v := RelayedIsBridged(s, i, k, g, C.HandleDm(s, i, f.payload), w, at, base, keep);
  }

  // ---------------------------------------------------------------- broadcasts

  /** The sessions of some slots. */
  function SessionsOf(at: seq<nat>, slots: set<nat>): set<nat>
    requires forall j :: j in slots ==> j < |at|
  {
    set j | j in slots :: at[j]
  }

  function MembersOf(cs: seq<C.Conn>, channel: int): set<nat> {
    set j: nat | j < |cs| && C.IsMember(cs[j], channel)
  }

  function GoneOf(cs: seq<C.Conn>, rs: seq<C.Conn>, channel: int): set<nat>
    requires |rs| == |cs|
  {
    set j: nat | j < |cs| && C.IsMember(cs[j], channel) && rs[j] == C.Blank()
  }

  lemma SessionsApart(cs: seq<C.Conn>, w: World, at: seq<nat>, base: seq<nat>, slots: set<nat>, j: nat)
    requires Mirrors(cs, w, at, base) && j < |cs| && C.Registered(cs[j])
    requires forall k :: k in slots ==> k < |cs| && C.Registered(cs[k])
    ensures at[j] in SessionsOf(at, slots) <==> j in slots
  {
    if at[j] in SessionsOf(at, slots) {
      var k :| k in slots && at[k] == at[j];
      assert k == j;
    }
  }

  lemma HeardSlot(cs: seq<C.Conn>, w: World, at: seq<nat>, base: seq<nat>, j: nat, channel: int, f: Frame, e: Event,
                  rs: seq<C.Conn>, drops: map<nat, nat>, y: Session)
    requires Mirrors(cs, w, at, base) && j < |cs| == |rs| && C.Registered(cs[j]) && Looks(e, f)
    requires CoreDelivery.Reached(cs[j], rs[j], C.IsMember(cs[j], channel), f)
    requires drops.Keys == SessionsOf(at, GoneOf(cs, rs, channel))
    requires SlotOk(cs[j], y, base[j])
    ensures InOrder(rs[j], Bridge.Heard(y, at[j], e, SessionsOf(at, MembersOf(cs, channel)), drops), base[j])
  {
    var member := C.IsMember(cs[j], channel);
    assert at[j] in SessionsOf(at, MembersOf(cs, channel)) <==> member by {
      SessionsApart(cs, w, at, base, MembersOf(cs, channel), j);
    }
    assert at[j] in drops <==> member && rs[j] == C.Blank() by {
      SessionsApart(cs, w, at, base, GoneOf(cs, rs, channel), j);
    }
    if member && rs[j] != C.Blank() { SlotPut(cs[j], y, base[j], e, f); }
  }

  lemma FanoutSlots(cs: seq<C.Conn>, u: World, v: World, at: seq<nat>, base: seq<nat>, channel: int, f: Frame, e: Event,
                    rs: seq<C.Conn>, drops: map<nat, nat>)
    requires Mirrors(cs, u, at, base) && |rs| == |cs| && Looks(e, f)
    requires forall j :: 0 <= j < |cs| ==> CoreDelivery.Reached(cs[j], rs[j], C.IsMember(cs[j], channel), f)
    requires drops.Keys == SessionsOf(at, GoneOf(cs, rs, channel))
    requires |v.sessions| == |u.sessions|
    requires forall k :: 0 <= k < |u.sessions| ==>
      v.sessions[k] == Bridge.Heard(u.sessions[k], k, e, SessionsOf(at, MembersOf(cs, channel)), drops)
    ensures Mirrors(rs, v, at, base)
  {
    forall j | 0 <= j < |rs| && C.Registered(cs[j]) ensures InOrder(rs[j], v.sessions[at[j]], base[j]) {
      HeardSlot(cs, u, at, base, j, channel, f, e, rs, drops, u.sessions[at[j]]);
    }
    forall j | 0 <= j < |rs| && C.Registered(rs[j]) ensures C.Registered(cs[j]) {
      assert CoreDelivery.Reached(cs[j], rs[j], C.IsMember(cs[j], channel), f);
    }
    Reassembled(cs, u, at, base, rs, v);
  }

  /** SAY: heard by the members that have room, dropping the others, or refused. */
  lemma SayIsBridged(s: C.State, i: nat, f: Frame, w: World, at: seq<nat>, base: seq<nat>, keep: nat -> nat)
    returns (actions: seq<Action>, v: World)
    requires CoreDelivery.Sound(s) && C.Live(s, i) && s.clients[i].registered && Mirrors(s.clients, w, at, base)
    requires Next(w, at, i, f) && f.kind == C.SAY
    ensures Spends(actions, at[i], keep)
    ensures !actions[0].Deliver? && (actions[0].Say? <==> s.clients[i].active != [] && C.ReadText(f.payload).Some?)
    ensures actions[0].Say? ==> actions[0].channel == s.clients[i].active
    ensures CoreDoes(w, actions, v) && Mirrors(C.HandleSay(s, i, f.payload).clients, v, at, base)
  {
    if s.clients[i].active == [] {
      actions, v := ErrorIsBridged(s, i, "join a channel before sending", w, at, base, keep);
    } else if C.ReadText(f.payload).None? {
      actions, v := ErrorIsBridged(s, i, "invalid message", w, at, base, keep);
    } else {
      actions, v := HeardIsBridged(s, i, f, w, at, base, keep);
    }
  }

  lemma ErrorIsBridged(s: C.State, i: nat, text: string, w: World, at: seq<nat>, base: seq<nat>, keep: nat -> nat)
    returns (actions: seq<Action>, v: World)
    requires CoreInvariant.Good(s) && C.Live(s, i) && s.clients[i].registered && Mirrors(s.clients, w, at, base)
    requires Enabled(w, Answer(at[i], true))
    ensures Spends(actions, at[i], keep)
    ensures actions[0].Answer?
    ensures CoreDoes(w, actions, v) && Mirrors(C.Say(s, i, C.ERROR, text).clients, v, at, base)
  {
    var f := Frame(C.ERROR, Ascii(text));
    PlainReplies(s, i, f);
    actions, v := ReplyIsBridged(s.clients, w, at, base, i, f, C.Deliver(s, i, f).clients, Answer(at[i], true), keep);
  }

  lemma HeardIsBridged(s: C.State, i: nat, f: Frame, w: World, at: seq<nat>, base: seq<nat>, keep: nat -> nat)
    returns (actions: seq<Action>, v: World)
    requires CoreDelivery.Sound(s) && C.Live(s, i) && s.clients[i].registered && Mirrors(s.clients, w, at, base)
    requires Next(w, at, i, f) && f.kind == C.SAY && s.clients[i].active != [] && C.ReadText(f.payload).Some?
    ensures Spends(actions, at[i], keep)
    ensures actions[0].Say? && actions[0].channel == s.clients[i].active
    ensures CoreDoes(w, actions, v) && Mirrors(C.HandleSay(s, i, f.payload).clients, v, at, base)
  {
    var c, text := s.clients[i], C.ReadText(f.payload).value;
    var channel := C.FindChannel(s.channels, c.active);
    var m := C.Chat(c.active, c.username, text);
    BroadcastReaches(s, i, f.payload, m);
    var g := Frame(C.CHAT, C.Written([m.channel, m.sender, m.text], MAX_PAYLOAD).value);
    actions, v := FanoutIsBridged(s.clients, w, at, base, i, channel, m, g, C.HandleSay(s, i, f.payload).clients, keep);
  }

  /** What a SAY that is taken does to the slots. */
  lemma BroadcastReaches(s: C.State, i: nat, payload: Bytes, m: C.Chat)
    requires CoreDelivery.Sound(s) && C.Live(s, i) && s.clients[i].registered && s.clients[i].active != []
    requires C.ReadText(payload).Some?
    requires m == C.Chat(s.clients[i].active, s.clients[i].username, C.ReadText(payload).value)
    ensures C.Written([m.channel, m.sender, m.text], MAX_PAYLOAD).Some?
    ensures var g := Frame(C.CHAT, C.Written([m.channel, m.sender, m.text], MAX_PAYLOAD).value);
            var channel := C.FindChannel(s.channels, s.clients[i].active);
            && CoreDelivery.DecodeChat(g) == Some(m) && C.IsMember(s.clients[i], channel)
            && AllHear(s.clients, channel, g, C.HandleSay(s, i, payload).clients)
  {
    CoreLaws.SayReachesItsChannel(s, i, payload);
    CoreDelivery.ChatFrameDecodes(m, MAX_PAYLOAD);
    var g := Frame(C.CHAT, C.Written([m.channel, m.sender, m.text], MAX_PAYLOAD).value);
    CoreDelivery.FanoutReaches(s, |s.clients|, C.FindChannel(s.channels, s.clients[i].active), -1, g);
  }

  predicate AllHear(cs: seq<C.Conn>, channel: int, g: Frame, rs: seq<C.Conn>) {
    && |rs| == |cs|
    && forall j :: 0 <= j < |cs| ==> CoreDelivery.Reached(cs[j], rs[j], C.IsMember(cs[j], channel), g)
  }

  lemma FanoutIsBridged(cs: seq<C.Conn>, w: World, at: seq<nat>, base: seq<nat>, i: nat, channel: int, m: C.Chat,
                        g: Frame, rs: seq<C.Conn>, keep: nat -> nat)
    returns (actions: seq<Action>, v: World)
    requires Mirrors(cs, w, at, base) && i < |cs| && C.IsMember(cs[i], channel) && AllHear(cs, channel, g, rs)
    requires CoreDelivery.DecodeChat(g) == Some(m) && m.sender == cs[i].username
    requires Connected(w, at[i]) && w.sessions[at[i]].toCore != [] && w.sessions[at[i]].toCore[0].SayCommand?
    requires CStr(w.sessions[at[i]].toCore[0].text) == m.text
    ensures Spends(actions, at[i], keep)
    ensures actions[0].Say? && actions[0].channel == m.channel
    ensures CoreDoes(w, actions, v) && Mirrors(rs, v, at, base)
  {
    var members, gone := SessionsOf(at, MembersOf(cs, channel)), SessionsOf(at, GoneOf(cs, rs, channel));
    var drops := map k | k in gone :: keep(k);
    var a := Say(at[i], m.channel, members, drops);
    SayEnabled(cs, w, at, base, i, channel, rs, a);
    actions, v := [a], Step(w, a);
    OneStep(w, a);
    SaidParts(w, at[i], m.channel, members, drops);
    TakenMirrors(cs, w, at, base, i);
    var e := ChatEvent(|w.broadcasts|, m.channel, m.sender, m.text);
    FanoutSlots(cs, Taken(w, at[i]), v, at, base, channel, g, e, rs, drops);
  }

  lemma TakenMirrors(cs: seq<C.Conn>, w: World, at: seq<nat>, base: seq<nat>, i: nat)
    requires Mirrors(cs, w, at, base) && i < |cs| && C.Registered(cs[i]) && w.sessions[at[i]].toCore != []
    ensures Mirrors(cs, Taken(w, at[i]), at, base)
  {
    SlotTake(cs[i], w.sessions[at[i]], base[i]);
    OneChanges(cs, w, at, base, i, cs[i], Taken(w, at[i]));
    assert cs[i := cs[i]] == cs;
  }

  lemma SayEnabled(cs: seq<C.Conn>, w: World, at: seq<nat>, base: seq<nat>, i: nat, channel: int,
                   rs: seq<C.Conn>, a: Action)
    requires Mirrors(cs, w, at, base) && i < |cs| == |rs| && C.IsMember(cs[i], channel)
    requires Connected(w, at[i]) && w.sessions[at[i]].toCore != [] && w.sessions[at[i]].toCore[0].SayCommand?
    requires a.Say? && a.i == at[i] && a.members == SessionsOf(at, MembersOf(cs, channel))
    requires a.drops.Keys == SessionsOf(at, GoneOf(cs, rs, channel))
    ensures Enabled(w, a)
  {
    assert i in MembersOf(cs, channel);
    forall k | k in a.members ensures Connected(w, k) {
      var j :| j in MembersOf(cs, channel) && at[j] == k;
      assert SlotOk(cs[j], w.sessions[at[j]], base[j]);
    }
    forall k | k in a.drops ensures k in a.members {
      var j :| j in GoneOf(cs, rs, channel) && at[j] == k;
      assert j in MembersOf(cs, channel);
    }
  }
}
