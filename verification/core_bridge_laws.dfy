/** Every frame the core handles is a run of core steps of the bridge. */
module CoreBridgeLaws {
  import opened Bytes
  import opened Wire
  import opened Bridge
  import opened BridgeInvariant
  import opened BridgePairing
  import opened CoreBridge
  import C = Core
  import CoreCommands
  import CoreClosed
  import CoreDelivery
  import CoreInvariant

  // ---------------------------------------------------------------- commands with one reply

  /** A reply the gateway sees as an error or as nothing special. */
  predicate PlainReply(f: Frame) {
    f.kind == C.ERROR || (f.kind !in [C.CHAT, C.DM_RECV] && f != Confirmation())
  }

  lemma OkIsPlain(f: Frame)
    requires f.kind == C.OK && f.payload != [] && f.payload[0] as int != 'd' as int
    ensures PlainReply(f)
  {
    assert Confirmation().payload[0] as int == 'd' as int;
  }

  lemma JoinReplies(s: C.State, i: nat, payload: Bytes) returns (g: Frame)
    requires C.Live(s, i)
    ensures PlainReply(g) && OneReply(s.clients, i, g, C.JoinChannel(s, i, payload).clients)
  {
    if !s.clients[i].registered {
      g := Frame(C.ERROR, Ascii("send HELLO first"));
      PlainReplies(s, i, g);
    } else {
      match C.ReadName(payload, C.CHANNEL_CAP)
      case None =>
        g := Frame(C.ERROR, Ascii("invalid channel"));
        PlainReplies(s, i, g);
      case Some(name) => g := EnterReplies(s, i, name);
    }
  }

  lemma EnterReplies(s: C.State, i: nat, name: Bytes) returns (g: Frame)
    requires C.Live(s, i)
    ensures PlainReply(g) && OneReply(s.clients, i, g, C.EnterNamed(s, i, name).clients)
  {
    var found := C.FindChannel(s.channels, name);
    if found < 0 && |s.channels| >= C.MAX_CHANNELS {
      g := Frame(C.ERROR, Ascii("too many channels"));
      PlainReplies(s, i, g);
    } else {
      var t := if found < 0 then s.(channels := s.channels + [name]) else s;
      var c := C.Enter(t, t.clients[i], if found < 0 then |s.channels| else found).(active := name);
      g := Frame(C.OK, Ascii("joined ") + name);
      OkIsPlain(g);
      DeliverReplies(s.clients, C.Update(t, i, c), i, c, g);
    }
  }

  lemma SwitchReplies(s: C.State, i: nat, payload: Bytes) returns (g: Frame)
    requires C.Live(s, i)
    ensures PlainReply(g) && OneReply(s.clients, i, g, C.SwitchChannel(s, i, payload).clients)
  {
    if !s.clients[i].registered {
      g := Frame(C.ERROR, Ascii("send HELLO first"));
      PlainReplies(s, i, g);
    } else {
      match C.ReadName(payload, C.CHANNEL_CAP)
      case None =>
        g := Frame(C.ERROR, Ascii("invalid channel"));
        PlainReplies(s, i, g);
      case Some(name) => g := SwitchNamedReplies(s, i, name);
    }
  }

  lemma SwitchNamedReplies(s: C.State, i: nat, name: Bytes) returns (g: Frame)
    requires C.Live(s, i)
    ensures PlainReply(g) && OneReply(s.clients, i, g, C.SwitchNamed(s, i, name).clients)
  {
    var c := s.clients[i];
    var channel := C.FindChannel(s.channels, name);
    if !(0 <= channel < |c.joined| && c.joined[channel]) {
      g := Frame(C.ERROR, Ascii("join channel before switching"));
      PlainReplies(s, i, g);
    } else {
      g := Frame(C.OK, Ascii("switched ") + name);
      OkIsPlain(g);
      DeliverReplies(s.clients, C.Update(s, i, c.(active := name)), i, c.(active := name), g);
    }
  }

  lemma LeaveReplies(s: C.State, i: nat, payload: Bytes) returns (g: Frame)
    requires C.Live(s, i)
    ensures PlainReply(g) && OneReply(s.clients, i, g, C.LeaveChannel(s, i, payload).clients)
  {
    match C.ReadName(payload, C.CHANNEL_CAP)
    case None =>
      g := Frame(C.ERROR, Ascii("invalid channel"));
      PlainReplies(s, i, g);
    case Some(name) => g := LeaveNamedReplies(s, i, name);
  }

  lemma LeaveNamedReplies(s: C.State, i: nat, name: Bytes) returns (g: Frame)
    requires C.Live(s, i)
    ensures PlainReply(g) && OneReply(s.clients, i, g, C.LeaveNamed(s, i, name).clients)
  {
    var c := s.clients[i];
    var channel := C.FindChannel(s.channels, name);
    if !(0 <= channel < |c.joined| && c.joined[channel]) {
      g := Frame(C.ERROR, Ascii("not in channel"));
      PlainReplies(s, i, g);
    } else {
      var d := c.(joined := c.joined[channel := false], active := if c.active == name then [] else c.active);
      g := Frame(C.OK, Ascii("left channel"));
      OkIsPlain(g);
      DeliverReplies(s.clients, C.Update(s, i, d), i, d, g);
    }
  }

  lemma WhoReplies(s: C.State, i: nat) returns (g: Frame)
    requires C.Live(s, i)
    ensures PlainReply(g) && OneReply(s.clients, i, g, C.SendWho(s, i).clients)
  {
    var channel := C.FindChannel(s.channels, s.clients[i].active);
    if channel < 0 {
      g := Frame(C.ERROR, Ascii("join a channel before listing participants"));
    } else {
      match C.Lines(C.Members(s.clients, channel), MAX_PAYLOAD)
      case None => g := Frame(C.ERROR, Ascii("WHO response too large"));
      case Some(text) => g := Frame(C.WHO_RESP, text);
    }
    PlainReplies(s, i, g);
  }

  lemma ListReplies(s: C.State, i: nat) returns (g: Frame)
    requires C.Live(s, i)
    ensures PlainReply(g) && OneReply(s.clients, i, g, C.SendList(s, i).clients)
  {
    var text := C.Lines(s.channels, MAX_PAYLOAD);
    g := if text.None? then Frame(C.ERROR, Ascii("LIST response too large")) else Frame(C.LIST_RESP, text.value);
    PlainReplies(s, i, g);
  }

  lemma StatsReplies(s: C.State, i: nat) returns (g: Frame)
    requires C.Live(s, i)
    ensures PlainReply(g) && OneReply(s.clients, i, g, C.SendStats(s, i).clients)
  {
    var text := C.StatsText(s.stats, C.CountRegistered(s.clients), |s.channels|, s.maxQueue);
    g := if |text| >= MAX_PAYLOAD then Frame(C.ERROR, Ascii("stats response too large")) else Frame(C.STATS_RESP, text);
    PlainReplies(s, i, g);
  }

  predicate OneReplyKind(f: Frame) {
    f.kind != C.HELLO && f.kind != C.NICK && f.kind != C.SAY && f.kind != C.DM && f.kind != C.QUIT
  }

  lemma MembershipReplies(s: C.State, i: nat, f: Frame) returns (g: Frame)
    requires C.Live(s, i) && C.AboutChannels(f.kind)
    ensures PlainReply(g) && OneReply(s.clients, i, g, C.HandleFrame(s, i, f).clients)
  {
    if f.kind == C.JOIN { g := JoinReplies(s, i, f.payload); }
    else if f.kind == C.SWITCH { g := SwitchReplies(s, i, f.payload); }
    else { g := LeaveReplies(s, i, f.payload); }
  }

  lemma ListingReplies(s: C.State, i: nat, f: Frame) returns (g: Frame)
    requires C.Live(s, i) && OneReplyKind(f) && !C.AboutChannels(f.kind) && f.kind != C.STATS
    ensures PlainReply(g) && OneReply(s.clients, i, g, C.HandleFrame(s, i, f).clients)
  {
    if f.kind == C.WHO { g := WhoReplies(s, i); }
    else if f.kind == C.LIST { g := ListReplies(s, i); }
    else {
      g := Frame(C.ERROR, Ascii("unknown message type"));
      PlainReplies(s, i, g);
    }
  }

  lemma OtherReplies(s: C.State, i: nat, f: Frame) returns (g: Frame)
    requires C.Live(s, i) && OneReplyKind(f)
    ensures PlainReply(g) && OneReply(s.clients, i, g, C.HandleFrame(s, i, f).clients)
  {
    if C.AboutChannels(f.kind) {
      g := MembershipReplies(s, i, f);
    } else if f.kind == C.STATS {
      g := StatsReplies(s, i);
    } else {
      g := ListingReplies(s, i, f);
    }
  }

  lemma OtherIsBridged(s: C.State, i: nat, f: Frame, w: World, at: seq<nat>, base: seq<nat>, keep: nat -> nat)
    returns (actions: seq<Action>, v: World)
    requires C.Live(s, i) && s.clients[i].registered && Mirrors(s.clients, w, at, base)
    requires Next(w, at, i, f) && OneReplyKind(f)
    ensures Spends(actions, at[i], keep)
    ensures actions[0].Answer?
    ensures CoreDoes(w, actions, v) && Mirrors(C.HandleFrame(s, i, f).clients, v, at, base)
  {
    var g := OtherReplies(s, i, f);
    var a := Answer(at[i], g.kind == C.ERROR);
    actions, v := ReplyIsBridged(s.clients, w, at, base, i, g, C.HandleFrame(s, i, f).clients, a, keep);
  }

  /** A malformed header: an error without a command. */
  lemma MalformedIsBridged(s: C.State, i: nat, w: World, at: seq<nat>, base: seq<nat>, keep: nat -> nat)
    returns (actions: seq<Action>, v: World)
    requires C.Live(s, i) && s.clients[i].registered && Mirrors(s.clients, w, at, base)
    requires Malformed(s.clients[i].inbuf)
    ensures Asides(actions, keep)
    ensures CoreDoes(w, actions, v) && Mirrors(C.Drain(s, i).state.clients, v, at, base)
  {
    var g, t := Frame(C.ERROR, Ascii("malformed frame")), C.CountMalformed(s);
    PlainReplies(t, i, g);
    actions, v := ReplyIsBridged(s.clients, w, at, base, i, g, C.Deliver(t, i, g).clients, Protest(at[i]), keep);
  }

  // ---------------------------------------------------------------- names

  /** No other client has the name, so no other connection of the bridge has. */
  lemma NameIsFree(s: C.State, w: World, at: seq<nat>, base: seq<nat>, i: nat, k: nat, name: Bytes)
    requires Mirrors(s.clients, w, at, base) && i < |s.clients| && !C.InUse(s, name, i)
    requires C.Registered(s.clients[i]) ==> k == at[i]
    ensures Free(w, k, name)
  {
    forall j | 0 <= j < |w.sessions| && w.sessions[j].connected && j != k ensures w.sessions[j].name != name {
      assert Behind(s.clients, at, j);
      var n :| 0 <= n < |s.clients| && C.Registered(s.clients[n]) && at[n] == j;
      assert SlotOk(s.clients[n], w.sessions[at[n]], base[n]);
    }
  }

  /** HELLO and NICK of a registered client, up to the reply. */
  lemma RenameIsBridged(s: C.State, i: nat, name: Bytes, g: Frame, w: World, at: seq<nat>, base: seq<nat>,
                          keep: nat -> nat)
    returns (actions: seq<Action>, v: World)
    requires C.Live(s, i) && s.clients[i].registered && Mirrors(s.clients, w, at, base)
    requires !C.InUse(s, name, i) && Looks(Other, g)
    requires Connected(w, at[i]) && w.sessions[at[i]].toCore != [] && w.sessions[at[i]].toCore[0].OtherCommand?
    ensures Spends(actions, at[i], keep)
    ensures actions[0].Nick?
    ensures CoreDoes(w, actions, v)
    ensures Mirrors(C.Deliver(C.Update(s, i, C.Rename(s.clients[i], name)), i, g).clients, v, at, base)
  {
    var c, k := C.Rename(s.clients[i], name), at[i];
    var t := C.Update(s, i, c);
    var rs, a, x := C.Deliver(t, i, g).clients, Nick(at[i], name), w.sessions[at[i]];
    NameIsFree(s, w, at, base, i, k, name);
    DeliverClients(t, i, g);
    var u := Step(w, a);
    if rs == t.clients[i := C.Blank()] {
      assert rs == s.clients[i := C.Blank()];
      actions, v := [a, Drop(k, keep(k))], Step(u, Drop(k, keep(k)));
      TwoSteps(w, a, Drop(k, keep(k)));
      OneChanges(s.clients, w, at, base, i, C.Blank(), v);
    } else {
      assert rs == s.clients[i := C.Push(c, g)];
      actions, v := [a], u;
      OneStep(w, a);
      SlotTake(s.clients[i], x, base[i]);
      var y := Renamed(w, k, name).sessions[k];
      assert SlotOk(c, y, base[i]) by { assert Stream(y) == Stream(Take(x)); }
      SlotPut(c, y, base[i], Other, g);
      OneChanges(s.clients, w, at, base, i, C.Push(c, g), v);
    }
  }

  // ---------------------------------------------------------------- notices

  lemma {:induction false} CoreDoesMore(w: World, actions: seq<Action>, u: World, more: seq<Action>, v: World)
    requires CoreDoes(w, actions, u) && CoreDoes(u, more, v)
    ensures CoreDoes(w, actions + more, v)
    decreases |actions|
  {
    if actions == [] {
      assert actions + more == more;
    } else {
      assert (actions + more)[1..] == actions[1..] + more;
      CoreDoesMore(Step(w, actions[0]), actions[1..], u, more, v);
    }
  }

  /** Some clients get a notice or are dropped for it, the first n of them so far. */
  predicate Noticed(cs: seq<C.Conn>, rs: seq<C.Conn>, f: Frame) {
    && |rs| == |cs|
    && forall j :: 0 <= j < |cs| ==> rs[j] == cs[j] || (C.Registered(cs[j]) && NoticedOne(cs[j], rs[j], f))
  }

  predicate NoticedOne(c: C.Conn, d: C.Conn, f: Frame) {
    d == C.Blank() || (|f.payload| <= MAX_PAYLOAD && d == C.Push(c, f))
  }

  /** The first n slots as they become, the others as they were. */
  function Spliced(cs: seq<C.Conn>, rs: seq<C.Conn>, n: nat): seq<C.Conn>
    requires n <= |cs| == |rs|
  {
    rs[..n] + cs[n..]
  }

  lemma SplicedEnds(cs: seq<C.Conn>, rs: seq<C.Conn>)
    requires |rs| == |cs|
    ensures Spliced(cs, rs, 0) == cs && Spliced(cs, rs, |cs|) == rs
  {
  }

  lemma SplicedOneMore(cs: seq<C.Conn>, rs: seq<C.Conn>, n: nat)
    requires n < |cs| == |rs|
    ensures Spliced(cs, rs, n)[n] == cs[n]
    ensures Spliced(cs, rs, n + 1) == Spliced(cs, rs, n)[n := rs[n]]
  {
    var l, r := Spliced(cs, rs, n + 1), Spliced(cs, rs, n)[n := rs[n]];
    assert |l| == |r|;
    assert forall k :: 0 <= k < |l| ==> l[k] == r[k];
  }

  lemma {:induction false} NoticesAreBridged(cs: seq<C.Conn>, w: World, at: seq<nat>, base: seq<nat>, rs: seq<C.Conn>,
                                             f: Frame, n: nat, keep: nat -> nat)
    returns (actions: seq<Action>, v: World)
    requires Mirrors(cs, w, at, base) && Noticed(cs, rs, f) && n <= |cs| && Looks(Other, f)
    ensures Asides(actions, keep)
    ensures CoreDoes(w, actions, v) && Mirrors(Spliced(cs, rs, n), v, at, base)
  {
    if n == 0 {
      actions, v := [], w;
      SplicedEnds(cs, rs);
    } else {
      var before, u := NoticesAreBridged(cs, w, at, base, rs, f, n - 1, keep);
      assert rs[n - 1] == cs[n - 1] || (C.Registered(cs[n - 1]) && NoticedOne(cs[n - 1], rs[n - 1], f));
      actions, v := OneMoreNotice(cs, w, at, base, rs, f, n - 1, keep, before, u);
    }
  }

  lemma OneMoreNotice(cs: seq<C.Conn>, w: World, at: seq<nat>, base: seq<nat>, rs: seq<C.Conn>, f: Frame, n: nat,
                      keep: nat -> nat, before: seq<Action>, u: World)
    returns (actions: seq<Action>, v: World)
    requires n < |cs| == |rs| && Looks(Other, f)
    requires CoreDoes(w, before, u) && Asides(before, keep) && Mirrors(Spliced(cs, rs, n), u, at, base)
    requires rs[n] == cs[n] || (C.Registered(cs[n]) && NoticedOne(cs[n], rs[n], f))
    ensures Asides(actions, keep)
    ensures CoreDoes(w, actions, v) && Mirrors(Spliced(cs, rs, n + 1), v, at, base)
  {
    SplicedOneMore(cs, rs, n);
    var more, z := SlotIsBridged(Spliced(cs, rs, n), u, at, base, n, rs[n], f, keep);
    CoreDoesMore(w, before, u, more, z);
    actions, v := before + more, z;
  }

  /** One slot, with or without a notice. */
  lemma SlotIsBridged(cs: seq<C.Conn>, w: World, at: seq<nat>, base: seq<nat>, j: nat, d: C.Conn, f: Frame,
                        keep: nat -> nat)
    returns (actions: seq<Action>, v: World)
    requires Mirrors(cs, w, at, base) && j < |cs| && Looks(Other, f)
    requires d == cs[j] || (C.Registered(cs[j]) && NoticedOne(cs[j], d, f))
    ensures Asides(actions, keep)
    ensures CoreDoes(w, actions, v) && Mirrors(cs[j := d], v, at, base)
  {
    if d == cs[j] {
      actions, v := [], w;
      assert cs[j := d] == cs;
    } else {
      actions, v := NoticeIsBridged(cs, w, at, base, j, d, f, keep);
    }
  }

  lemma NoticeIsBridged(cs: seq<C.Conn>, w: World, at: seq<nat>, base: seq<nat>, j: nat, d: C.Conn, f: Frame,
                          keep: nat -> nat)
    returns (actions: seq<Action>, v: World)
    requires Mirrors(cs, w, at, base) && j < |cs| && C.Registered(cs[j]) && NoticedOne(cs[j], d, f) && Looks(Other, f)
    ensures Asides(actions, keep)
    ensures CoreDoes(w, actions, v) && Mirrors(cs[j := d], v, at, base)
  {
    if d == C.Blank() {
      CloseIsBridged(cs, w, at, base, j, keep);
      actions, v := [Drop(at[j], keep(at[j]))], Step(w, Drop(at[j], keep(at[j])));
    } else {
      actions, v := [Notify(at[j])], Step(w, Notify(at[j]));
      OneStep(w, Notify(at[j]));
      SlotPut(cs[j], w.sessions[at[j]], base[j], Other, f);
      OneChanges(cs, w, at, base, j, d, v);
    }
  }

  lemma AnnounceNotices(u: C.State, i: nat, text: Bytes)
    requires CoreInvariant.Good(u) && i < |u.clients|
    ensures Noticed(u.clients, C.Announce(u, i, text).clients, Frame(C.SYSTEM, text))
  {
    var channel, f := C.FindChannel(u.channels, u.clients[i].active), Frame(C.SYSTEM, text);
    if channel >= 0 {
      CoreDelivery.FanoutReaches(u, |u.clients|, channel, i, f);
      var r := C.Fanout(u, |u.clients|, channel, i, f);
      forall j | 0 <= j < |u.clients|
        ensures || r.clients[j] == u.clients[j]
                || (C.Registered(u.clients[j]) && NoticedOne(u.clients[j], r.clients[j], f))
      {
        assert CoreDelivery.AllReached(u, r, |u.clients|, channel, i, f);
        assert CoreDelivery.Reached(u.clients[j], r.clients[j], j != i && C.IsMember(u.clients[j], channel), f);
      }
    }
  }

  /** The answer to a HELLO or a NICK that is granted. */
  function Welcome(kind: byte): Frame {
    Frame(C.OK, if kind == C.HELLO then Ascii("registered") else Ascii("username changed"))
  }

  lemma WelcomeIsPlain(kind: byte)
    ensures Looks(Other, Welcome(kind))
  {
    OkIsPlain(Welcome(kind));
  }

  /** The state after that answer, before a NICK is announced. */
  function Named(s: C.State, i: nat, name: Bytes, kind: byte): C.State
    requires i < |s.clients|
  {
    C.Deliver(C.Update(s, i, C.Rename(s.clients[i], name)), i, Welcome(kind))
  }

  predicate Granted(s: C.State, i: nat, f: Frame) {
    C.ReadName(f.payload, C.NAME_CAP).Some? && !C.InUse(s, C.ReadName(f.payload, C.NAME_CAP).value, i)
  }

  /** What HELLO and NICK come to. */
  lemma NamingOutcome(s: C.State, i: nat, f: Frame)
    requires C.Live(s, i) && (f.kind == C.HELLO || f.kind == C.NICK)
    ensures var r := C.HandleFrame(s, i, f);
            if !Granted(s, i, f) then
              || r == C.Say(s, i, C.ERROR, "invalid username")
              || r == C.Say(s, i, C.ERROR, "username already in use")
            else
              var name := C.ReadName(f.payload, C.NAME_CAP).value;
              var u := Named(s, i, name, f.kind);
              i < |u.clients|
              && r == if f.kind == C.HELLO then u else C.Announce(u, i, C.Notice(s.clients[i].username, name))
  {
    C.HandlerOf(s, i, f);
    if Granted(s, i, f) { NameGranted(s, i, f); } else { NameRefused(s, i, f); }
  }

  lemma NameRefused(s: C.State, i: nat, f: Frame)
    requires C.Live(s, i) && !Granted(s, i, f)
    ensures C.HandleHello(s, i, f.payload) == C.HandleNick(s, i, f.payload)
    ensures || C.HandleHello(s, i, f.payload) == C.Say(s, i, C.ERROR, "invalid username")
            || C.HandleHello(s, i, f.payload) == C.Say(s, i, C.ERROR, "username already in use")
  {
  }

  lemma NameGranted(s: C.State, i: nat, f: Frame)
    requires C.Live(s, i) && Granted(s, i, f)
    ensures var name := C.ReadName(f.payload, C.NAME_CAP).value;
            && C.HandleHello(s, i, f.payload) == Named(s, i, name, C.HELLO)
            && i < |Named(s, i, name, C.NICK).clients|
            && C.HandleNick(s, i, f.payload) ==
               C.Announce(Named(s, i, name, C.NICK), i, C.Notice(s.clients[i].username, name))
  {
  }

  lemma NamedIsSound(s: C.State, i: nat, name: Bytes, kind: byte)
    requires CoreDelivery.Sound(s) && C.Live(s, i) && !C.InUse(s, name, i) && NameOk(name, 1, C.NAME_CAP)
    ensures CoreDelivery.Sound(Named(s, i, name, kind)) && |Named(s, i, name, kind).clients| == |s.clients|
  {
    assert CoreDelivery.DeliveredTo(s.channels, s.log, s.clients[i]);
    CoreCommands.RenameKeeps(s.channels, s.maxQueue, s.log, s.clients[i], name);
    CoreCommands.ChangeAndAnswer(s, i, C.Rename(s.clients[i], name), Welcome(kind));
  }

  /** HELLO and NICK of a client that has a name already. */
  lemma NamingIsBridged(s: C.State, i: nat, f: Frame, w: World, at: seq<nat>, base: seq<nat>, keep: nat -> nat)
    returns (actions: seq<Action>, v: World)
    requires CoreDelivery.Sound(s) && C.Live(s, i) && s.clients[i].registered && Mirrors(s.clients, w, at, base)
    requires Next(w, at, i, f) && (f.kind == C.HELLO || f.kind == C.NICK)
    ensures Spends(actions, at[i], keep)
    ensures actions[0].Nick? || actions[0].Answer?
    ensures CoreDoes(w, actions, v) && Mirrors(C.HandleFrame(s, i, f).clients, v, at, base)
  {
    NamingOutcome(s, i, f);
    if !Granted(s, i, f) {
      if C.HandleFrame(s, i, f) == C.Say(s, i, C.ERROR, "invalid username") {
        actions, v := ErrorIsBridged(s, i, "invalid username", w, at, base, keep);
      } else {
        actions, v := ErrorIsBridged(s, i, "username already in use", w, at, base, keep);
      }
    } else {
      actions, v := GrantedIsBridged(s, i, f, w, at, base, keep);
    }
  }

  lemma AsidesFollow(actions: seq<Action>, more: seq<Action>, k: nat, keep: nat -> nat)
    requires Spends(actions, k, keep) && Asides(more, keep)
    ensures Spends(actions + more, k, keep) && (actions + more)[0] == actions[0]
  {
    assert (actions + more)[1..] == actions[1..] + more;
  }

  lemma GrantedIsBridged(s: C.State, i: nat, f: Frame, w: World, at: seq<nat>, base: seq<nat>, keep: nat -> nat)
    returns (actions: seq<Action>, v: World)
    requires CoreDelivery.Sound(s) && C.Live(s, i) && s.clients[i].registered && Mirrors(s.clients, w, at, base)
    requires Next(w, at, i, f) && (f.kind == C.HELLO || f.kind == C.NICK) && Granted(s, i, f)
    ensures Spends(actions, at[i], keep)
    ensures actions[0].Nick?
    ensures CoreDoes(w, actions, v) && Mirrors(C.HandleFrame(s, i, f).clients, v, at, base)
  {
    var name := C.ReadName(f.payload, C.NAME_CAP).value;
    NamingOutcome(s, i, f);
    WelcomeIsPlain(f.kind);
    actions, v := RenameIsBridged(s, i, name, Welcome(f.kind), w, at, base, keep);
    if f.kind == C.NICK {
      NamedIsSound(s, i, name, f.kind);
      var notice := C.Notice(s.clients[i].username, name);
      var more, z := AnnounceIsBridged(Named(s, i, name, f.kind), i, notice, v, at, base, keep);
      CoreDoesMore(w, actions, v, more, z);
      AsidesFollow(actions, more, at[i], keep);
      actions, v := actions + more, z;
    }
  }

  lemma AnnounceIsBridged(u: C.State, i: nat, text: Bytes, w: World, at: seq<nat>, base: seq<nat>, keep: nat -> nat)
    returns (actions: seq<Action>, v: World)
    requires CoreInvariant.Good(u) && i < |u.clients| && Mirrors(u.clients, w, at, base)
    ensures Asides(actions, keep)
    ensures CoreDoes(w, actions, v) && Mirrors(C.Announce(u, i, text).clients, v, at, base)
  {
    var rs := C.Announce(u, i, text).clients;
    AnnounceNotices(u, i, text);
    actions, v := NoticesAreBridged(u.clients, w, at, base, rs, Frame(C.SYSTEM, text), |rs|, keep);
    SplicedEnds(u.clients, rs);
  }

  // ---------------------------------------------------------------- clients without a name

  lemma StrangerChanges(cs: seq<C.Conn>, w: World, at: seq<nat>, base: seq<nat>, i: nat, c: C.Conn)
    requires Mirrors(cs, w, at, base) && i < |cs| && !C.Registered(cs[i]) && !C.Registered(c)
    ensures Mirrors(cs[i := c], w, at, base)
  {
    forall k | 0 <= k < |w.sessions| && w.sessions[k].connected ensures Behind(cs[i := c], at, k) {
      assert Behind(cs, at, k);
      var n :| 0 <= n < |cs| && C.Registered(cs[n]) && at[n] == k;
      assert cs[i := c][n] == cs[n];
    }
  }

  lemma StrangerReplies(cs: seq<C.Conn>, w: World, at: seq<nat>, base: seq<nat>, i: nat, g: Frame, rs: seq<C.Conn>)
    requires Mirrors(cs, w, at, base) && i < |cs| && cs[i].fd >= 0 && !cs[i].registered && OneReply(cs, i, g, rs)
    ensures Mirrors(rs, w, at, base)
  {
    StrangerChanges(cs, w, at, base, i, rs[i]);
  }

  /** A client that registers becomes a session whose stream begins after the answer. */
  lemma RegisteringIsBridged(cs: seq<C.Conn>, s: C.State, i: nat, name: Bytes, g: Frame, w: World,
                             at: seq<nat>, base: seq<nat>, gateway: bool)
    requires cs == s.clients && C.Live(s, i) && !s.clients[i].registered && Mirrors(cs, w, at, base)
    requires !C.InUse(s, name, i) && |g.payload| <= MAX_PAYLOAD
    ensures Enabled(w, Open(name, gateway))
    ensures Mirrors(cs[i := C.Push(C.Rename(cs[i], name), g)], Step(w, Open(name, gateway)),
                    at[i := |w.sessions|], base[i := |cs[i].history.accepted| + 1])
  {
    NameIsFree(s, w, at, base, i, |w.sessions|, name);
    var c := C.Push(C.Rename(cs[i], name), g);
    var rs, v := cs[i := c], Step(w, Open(name, gateway));
    var at', base' := at[i := |w.sessions|], base[i := |cs[i].history.accepted| + 1];
    forall j | 0 <= j < |rs| && C.Registered(rs[j])
      ensures at'[j] < |v.sessions| && SlotOk(rs[j], v.sessions[at'[j]], base'[j])
    {
      if j != i { assert SlotOk(cs[j], w.sessions[at[j]], base[j]); }
    }
    forall k | 0 <= k < |v.sessions| && v.sessions[k].connected ensures Behind(rs, at', k) {
      if k == |w.sessions| {
        assert C.Registered(rs[i]) && at'[i] == k;
      } else {
        assert Behind(cs, at, k);
        var n :| 0 <= n < |cs| && C.Registered(cs[n]) && at[n] == k;
        assert rs[n] == cs[n] && at'[n] == k;
      }
    }
  }

  lemma StrangerIsBridged(s: C.State, i: nat, f: Frame, w: World, at: seq<nat>, base: seq<nat>)
    requires C.Live(s, i) && !s.clients[i].registered && Mirrors(s.clients, w, at, base)
    requires f.kind != C.HELLO && f.kind != C.NICK
    ensures Mirrors(C.HandleFrame(s, i, f).clients, w, at, base)
  {
    if f.kind == C.SAY || f.kind == C.DM {
      var g := Frame(C.ERROR, Ascii("send HELLO first"));
      PlainReplies(s, i, g);
      StrangerReplies(s.clients, w, at, base, i, g, C.Deliver(s, i, g).clients);
    } else if f.kind == C.QUIT {
      StrangerChanges(s.clients, w, at, base, i, C.Blank());
    } else {
      var g := OtherReplies(s, i, f);
      StrangerReplies(s.clients, w, at, base, i, g, C.HandleFrame(s, i, f).clients);
    }
  }

  /** Where a slot stands in the bridge: which session it is, and from where. */
  datatype Place = Place(at: seq<nat>, base: seq<nat>)

  /** Client i has become the next session, or nothing has happened. */
  predicate Joins(s: C.State, i: nat, w: World, p: Place, gateway: bool, actions: seq<Action>, v: World, q: Place)
    requires i < |s.clients| && (actions != [] ==> actions[0].Open?)
  {
    if actions == [] then v == w && q == p
    else
      && actions == [Open(actions[0].user, gateway)] && i < |p.at| == |p.base|
      && q == Place(p.at[i := |w.sessions|], p.base[i := |s.clients[i].history.accepted| + 1])
  }

  /** A first HELLO or NICK: a new session, or nothing if it is refused or the client is
      dropped for the answer. */
  lemma FirstNameIsBridged(s: C.State, i: nat, f: Frame, w: World, p: Place, gateway: bool)
    returns (actions: seq<Action>, v: World, q: Place)
    requires CoreDelivery.Sound(s) && C.Live(s, i) && !s.clients[i].registered && Mirrors(s.clients, w, p.at, p.base)
    requires f.kind == C.HELLO || f.kind == C.NICK
    ensures (actions != [] ==> actions[0].Open?) && Joins(s, i, w, p, gateway, actions, v, q)
    ensures actions != [] ==> Granted(s, i, f)
    ensures actions == [] ==> i < |C.HandleFrame(s, i, f).clients| && !C.Registered(C.HandleFrame(s, i, f).clients[i])
    ensures CoreDoes(w, actions, v) && Mirrors(C.HandleFrame(s, i, f).clients, v, q.at, q.base)
  {
    NamingOutcome(s, i, f);
    if Granted(s, i, f) {
      var name := C.ReadName(f.payload, C.NAME_CAP).value;
      FirstNameIsQuiet(s, i, f, name);
      actions, v, q := WelcomedIsBridged(s, i, name, f.kind, w, p, gateway);
    } else {
      actions, v, q := [], w, p;
      var r := C.HandleFrame(s, i, f);
      var g := Frame(C.ERROR, if r == C.Say(s, i, C.ERROR, "invalid username")
                              then Ascii("invalid username") else Ascii("username already in use"));
      PlainReplies(s, i, g);
      StrangerReplies(s.clients, w, p.at, p.base, i, g, r.clients);
    }
  }

  lemma WelcomedIsBridged(s: C.State, i: nat, name: Bytes, kind: byte, w: World, p: Place, gateway: bool)
    returns (actions: seq<Action>, v: World, q: Place)
    requires C.Live(s, i) && !s.clients[i].registered && Mirrors(s.clients, w, p.at, p.base) && !C.InUse(s, name, i)
    ensures (actions != [] ==> actions[0].Open?) && Joins(s, i, w, p, gateway, actions, v, q)
    ensures actions == [] ==> i < |Named(s, i, name, kind).clients| && !C.Registered(Named(s, i, name, kind).clients[i])
    ensures CoreDoes(w, actions, v) && Mirrors(Named(s, i, name, kind).clients, v, q.at, q.base)
  {
    actions, v, q := [], w, p;
    var rs, g, c := Named(s, i, name, kind).clients, Welcome(kind), C.Rename(s.clients[i], name);
    DeliverClients(C.Update(s, i, c), i, g);
    if rs == s.clients[i := c][i := C.Blank()] {
      assert rs == s.clients[i := C.Blank()];
      StrangerChanges(s.clients, w, p.at, p.base, i, C.Blank());
    } else {
      assert rs == s.clients[i := C.Push(c, g)];
      RegisteringIsBridged(s.clients, s, i, name, g, w, p.at, p.base, gateway);
      OneStep(w, Open(name, gateway));
      actions, v := [Open(name, gateway)], Step(w, Open(name, gateway));
      q := Place(p.at[i := |w.sessions|], p.base[i := |s.clients[i].history.accepted| + 1]);
    }
  }

  /** A client on no channel announces nothing. */
  lemma FirstNameIsQuiet(s: C.State, i: nat, f: Frame, name: Bytes)
    requires CoreDelivery.Sound(s) && C.Live(s, i) && !s.clients[i].registered && Granted(s, i, f)
    requires (f.kind == C.HELLO || f.kind == C.NICK) && C.ReadName(f.payload, C.NAME_CAP) == Some(name)
    ensures C.HandleFrame(s, i, f) == Named(s, i, name, f.kind)
  {
    NamingOutcome(s, i, f);
    NamedIsSound(s, i, name, f.kind);
    var u := Named(s, i, name, f.kind);
    DeliverClients(C.Update(s, i, C.Rename(s.clients[i], name)), i, Welcome(f.kind));
    assert CoreInvariant.SessionOk(s.channels, s.clients[i]);
    assert u.clients[i].active == [];
    CoreCommands.NoEmptyChannel(u.channels);
  }

  // ---------------------------------------------------------------- the law

  /** Whatever frame the core handles in a reachable state, from whatever client, the core of
      the bridge has a run of its own from the world that mirrors the state to one that
      mirrors the outcome: for every choice of what a closed connection's peer still gets,
      and of whether a newcomer is a gateway session. */
  lemma FrameIsBridged(s: C.State, i: nat, f: Frame, w: World, p: Place, keep: nat -> nat, gateway: bool)
    returns (actions: seq<Action>, v: World, q: Place)
    requires CoreDelivery.Sound(s) && C.Live(s, i) && Mirrors(s.clients, w, p.at, p.base)
    requires s.clients[i].registered ==> Next(w, p.at, i, f)
    ensures CoreDoes(w, actions, v) && Mirrors(C.HandleFrame(s, i, f).clients, v, q.at, q.base)
  {
    actions, v, q := [], w, p;
    if !s.clients[i].registered {
      if f.kind == C.HELLO || f.kind == C.NICK {
        actions, v, q := FirstNameIsBridged(s, i, f, w, p, gateway);
      } else {
        StrangerIsBridged(s, i, f, w, p.at, p.base);
      }
    } else {
      actions, v := KnownIsBridged(s, i, f, w, p.at, p.base, keep);
    }
  }

  /** The log and the count of direct messages change as the step says. */
  predicate BooksFollow(s: C.State, r: C.State, x: Session, a: Action) {
    && r.log == s.log + (if a.Say? then Line(x, a.channel) else [])
    && r.stats.directMessages == s.stats.directMessages + if a.Deliver? then 1 else 0
  }

  /** What x says, as a line of the log. */
  function Line(x: Session, channel: Bytes): seq<C.Chat> {
    if x.toCore != [] && x.toCore[0].SayCommand? then [C.Chat(channel, x.name, CStr(x.toCore[0].text))] else []
  }

  lemma SayFollows(s: C.State, i: nat, f: Frame, w: World, at: seq<nat>, base: seq<nat>, keep: nat -> nat)
    returns (actions: seq<Action>, v: World)
    requires CoreDelivery.Sound(s) && C.Live(s, i) && s.clients[i].registered
    requires Mirrors(s.clients, w, at, base) && Next(w, at, i, f) && f.kind == C.SAY
    ensures Spends(actions, at[i], keep) && BooksFollow(s, C.HandleSay(s, i, f.payload), w.sessions[at[i]], actions[0])
    ensures CoreDoes(w, actions, v) && Mirrors(C.HandleSay(s, i, f.payload).clients, v, at, base)
  {
    actions, v := SayIsBridged(s, i, f, w, at, base, keep);
    CoreClosed.SayMoves(s, i, f.payload);
    assert SlotOk(s.clients[i], w.sessions[at[i]], base[i]);
  }

  lemma DmFollows(s: C.State, i: nat, f: Frame, w: World, at: seq<nat>, base: seq<nat>, keep: nat -> nat)
    returns (actions: seq<Action>, v: World)
    requires CoreDelivery.Sound(s) && C.Live(s, i) && s.clients[i].registered
    requires Mirrors(s.clients, w, at, base) && Next(w, at, i, f) && f.kind == C.DM
    ensures Spends(actions, at[i], keep) && BooksFollow(s, C.HandleDm(s, i, f.payload), w.sessions[at[i]], actions[0])
    ensures CoreDoes(w, actions, v) && Mirrors(C.HandleDm(s, i, f.payload).clients, v, at, base)
  {
    actions, v := DmIsBridged(s, i, f, w, at, base, keep);
    CoreClosed.DmMoves(s, i, f.payload);
  }

  lemma QuitEmpties(s: C.State, i: nat, f: Frame)
    requires i < |s.clients| && f.kind == C.QUIT
    ensures C.HandleFrame(s, i, f).clients == s.clients[i := C.Blank()]
  {
    C.HandlerOf(s, i, f);
  }

  /** QUIT, and everything that is no SAY and no DM. */
  lemma PlainIsBridged(s: C.State, i: nat, f: Frame, w: World, at: seq<nat>, base: seq<nat>, keep: nat -> nat)
    returns (actions: seq<Action>, v: World)
    requires CoreDelivery.Sound(s) && C.Live(s, i) && s.clients[i].registered
    requires Mirrors(s.clients, w, at, base) && Next(w, at, i, f) && f.kind != C.SAY && f.kind != C.DM
    ensures Spends(actions, at[i], keep) || actions == [Drop(at[i], keep(at[i]))]
    ensures !actions[0].Say? && !actions[0].Deliver?
    ensures CoreDoes(w, actions, v) && Mirrors(C.HandleFrame(s, i, f).clients, v, at, base)
  {
    if f.kind == C.HELLO || f.kind == C.NICK {
      actions, v := NamingIsBridged(s, i, f, w, at, base, keep);
    } else if f.kind == C.QUIT {
      QuitEmpties(s, i, f);
      CloseIsBridged(s.clients, w, at, base, i, keep);
      actions, v := [Drop(at[i], keep(at[i]))], Step(w, Drop(at[i], keep(at[i])));
    } else {
      actions, v := OtherIsBridged(s, i, f, w, at, base, keep);
    }
  }

  lemma KnownIsBridged(s: C.State, i: nat, f: Frame, w: World, at: seq<nat>, base: seq<nat>, keep: nat -> nat)
    returns (actions: seq<Action>, v: World)
    requires CoreDelivery.Sound(s) && C.Live(s, i) && s.clients[i].registered
    requires Mirrors(s.clients, w, at, base) && Next(w, at, i, f)
    ensures Spends(actions, at[i], keep) || actions == [Drop(at[i], keep(at[i]))]
    ensures BooksFollow(s, C.HandleFrame(s, i, f), w.sessions[at[i]], actions[0])
    ensures CoreDoes(w, actions, v) && Mirrors(C.HandleFrame(s, i, f).clients, v, at, base)
  {
    C.HandlerOf(s, i, f);
    if f.kind == C.SAY {
      actions, v := SayFollows(s, i, f, w, at, base, keep);
    } else if f.kind == C.DM {
      actions, v := DmFollows(s, i, f, w, at, base, keep);
    } else {
      actions, v := PlainIsBridged(s, i, f, w, at, base, keep);
      CoreClosed.FrameMoves(s, i, f);
    }
  }

  /** Reading, writing and accepting change nothing the relation speaks of. */
  predicate SameToTheBridge(c: C.Conn, d: C.Conn) {
    && (C.Registered(c) <==> C.Registered(d))
    && (C.Registered(c) ==>
          && d.username == c.username
          && d.history.accepted == c.history.accepted && d.history.serial == c.history.serial)
  }

  lemma QuietIsBridged(cs: seq<C.Conn>, w: World, at: seq<nat>, base: seq<nat>, rs: seq<C.Conn>)
    requires Mirrors(cs, w, at, base) && |rs| == |cs|
    requires forall j :: 0 <= j < |cs| ==> SameToTheBridge(cs[j], rs[j])
    ensures Mirrors(rs, w, at, base)
  {
    forall j | 0 <= j < |cs| && C.Registered(cs[j]) ensures InOrder(rs[j], w.sessions[at[j]], base[j]) {
      assert SameToTheBridge(cs[j], rs[j]) && SlotOk(cs[j], w.sessions[at[j]], base[j]);
    }
    forall j | 0 <= j < |cs| && C.Registered(rs[j]) ensures C.Registered(cs[j]) {
      assert SameToTheBridge(cs[j], rs[j]);
    }
    Reassembled(cs, w, at, base, rs, w);
  }
}
