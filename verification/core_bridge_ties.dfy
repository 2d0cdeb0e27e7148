/** How a frame handled by the core goes through the bridge: it becomes a command sent just
    before it is handled, and the core's reaction the steps of CoreBridgeLaws; afterwards
    the world mirrors the core again, books and closed connections included. */
module CoreBridgeTies {
  import opened Bytes
  import opened Wire
  import opened Bridge
  import opened BridgeInvariant
  import opened BridgePairing
  import opened CoreBridge
  import opened CoreBridgeBooks
  import opened CoreBridgeLaws
  import C = Core
  import CoreClosed
  import CoreDelivery

  // ---------------------------------------------------------------- runs of the bridge

  /** The steps are possible from w, one after the other, and lead to v. */
  ghost predicate Does(w: World, actions: seq<Action>, v: World)
    decreases |actions|
  {
    if actions == [] then v == w
    else Enabled(w, actions[0]) && Does(Step(w, actions[0]), actions[1..], v)
  }

  ghost predicate Goes(w: World, v: World) {
    exists actions :: Does(w, actions, v)
  }

  lemma {:induction false} DoesMore(w: World, actions: seq<Action>, u: World, more: seq<Action>, v: World)
    requires Does(w, actions, u) && Does(u, more, v)
    ensures Does(w, actions + more, v)
    decreases |actions|
  {
    if actions == [] {
      assert actions + more == more;
    } else {
      assert (actions + more)[1..] == actions[1..] + more;
      DoesMore(Step(w, actions[0]), actions[1..], u, more, v);
    }
  }

  lemma GoesNowhere(w: World)
    ensures Goes(w, w)
  {
    assert Does(w, [], w);
  }

  lemma GoesOn(w: World, u: World, v: World)
    requires Goes(w, u) && Goes(u, v)
    ensures Goes(w, v)
  {
    var actions :| Does(w, actions, u);
    var more :| Does(u, more, v);
    DoesMore(w, actions, u, more, v);
  }

  lemma GoesOne(w: World, a: Action)
    requires Enabled(w, a)
    ensures Goes(w, Step(w, a))
  {
    assert [a][1..] == [];
    assert Does(w, [a], Step(w, a));
  }

  lemma {:induction false} CoreGoes(w: World, actions: seq<Action>, v: World)
    requires CoreDoes(w, actions, v)
    ensures Does(w, actions, v)
    ensures Goes(w, v)
    decreases |actions|
  {
    if actions != [] { CoreGoes(Step(w, actions[0]), actions[1..], v); }
    assert Does(w, actions, v);
  }

  lemma OneMore(before: seq<Action>, a: Action)
    requires Possible(before) && Enabled(Run(before), a)
    ensures Possible(before + [a]) && Run(before + [a]) == Step(Run(before), a)
  {
    var next := before + [a];
    assert next[..|next| - 1] == before;
  }

  /** From a run of the bridge, the steps go on to a run of the bridge. */
  lemma {:induction false} DoesRun(before: seq<Action>, actions: seq<Action>, v: World)
    requires Possible(before) && Does(Run(before), actions, v)
    ensures Possible(before + actions) && Run(before + actions) == v
    decreases |actions|
  {
    if actions == [] {
      assert before + actions == before;
    } else {
      assert before + actions == before + [actions[0]] + actions[1..];
      OneMore(before, actions[0]);
      DoesRun(before + [actions[0]], actions[1..], v);
    }
  }

  // ---------------------------------------------------------------- who can send

  /** The client can send a command: a gateway session needs its pumps. */
  predicate Able(x: Session) {
    x.gateway ==> Pumping(x) && !x.ended
  }

  predicate AtRest(x: Session) {
    x.connected ==> Able(x) && x.toCore == []
  }

  /** The core has taken every command, and everybody can send another. */
  predicate Ready(w: World) {
    forall j :: 0 <= j < |w.sessions| ==> AtRest(w.sessions[j])
  }

  /** The same but for one command of session k. */
  predicate Waiting(w: World, k: nat) {
    && k < |w.sessions| && Able(w.sessions[k]) && |w.sessions[k].toCore| == 1
    && forall j :: 0 <= j < |w.sessions| && j != k ==> AtRest(w.sessions[j])
  }

  lemma SaidReady(w: World, k: nat, channel: Bytes, members: set<nat>, drops: map<nat, nat>)
    requires Waiting(w, k) && Enabled(w, Say(k, channel, members, drops))
    ensures Ready(Said(w, k, channel, members, drops))
  {
    SaidParts(w, k, channel, members, drops);
  }

  lemma DeliveredReady(w: World, k: nat, to: nat, dropped: Option<nat>)
    requires Waiting(w, k) && Enabled(w, Deliver(k, to, dropped))
    ensures Ready(Delivered(w, k, to, dropped))
  {
    DeliveredStatus(w, k, to, dropped);
    forall j | 0 <= j < |w.sessions| ensures AtRest(Delivered(w, k, to, dropped).sessions[j]) {
      DeliveredSession(w, k, to, dropped, j);
    }
  }

  lemma ConsumingReady(w: World, a: Action, k: nat, keep: nat -> nat)
    requires Waiting(w, k) && Enabled(w, a) && Consuming(a, k, keep)
    ensures Ready(Step(w, a))
  {
    match a
    case Deliver(i, to, dropped) => DeliveredReady(w, i, to, dropped);
    case Say(i, channel, members, drops) => SaidReady(w, i, channel, members, drops);
    case _ =>
  }

  lemma AsideReady(w: World, a: Action)
    requires Ready(w) && Enabled(w, a) && (a.Protest? || a.Notify? || a.Drop?)
    ensures Ready(Step(w, a))
  {
  }

  lemma {:induction false} AsidesReady(w: World, actions: seq<Action>, v: World, keep: nat -> nat)
    requires Ready(w) && CoreDoes(w, actions, v) && Asides(actions, keep)
    ensures Ready(v)
    decreases |actions|
  {
    if actions != [] {
      AsideReady(w, actions[0]);
      AsidesReady(Step(w, actions[0]), actions[1..], v, keep);
    }
  }

  /** When the one command has been taken, or its client is gone, all is ready again. */
  lemma SpendsReady(w: World, k: nat, keep: nat -> nat, actions: seq<Action>, v: World)
    requires Waiting(w, k) && CoreDoes(w, actions, v)
    requires Spends(actions, k, keep) || actions == [Drop(k, keep(k))]
    ensures Ready(v)
  {
    if actions == [Drop(k, keep(k))] {
      assert actions[1..] == [];
    } else {
      ConsumingReady(w, actions[0], k, keep);
      AsidesReady(Step(w, actions[0]), actions[1..], v, keep);
    }
  }

  // ---------------------------------------------------------------- commands

  /** What the client must have meant with a frame. */
  function Typed(f: Frame): Command {
    if f.kind == C.DM then
      match C.ReadDirect(f.payload)
      case Some(dm) => DmCommand(Pending(dm.target, dm.text))
      case None => DmCommand(Pending([], []))
    else if f.kind == C.SAY then
      SayCommand(if C.ReadText(f.payload).Some? then C.ReadText(f.payload).value else [])
    else OtherCommand
  }

  lemma TypedCarries(f: Frame)
    ensures Carries(Typed(f), f)
    ensures Typed(f).DmCommand? ==> NulFree(Typed(f).dm.target)
  {
    if f.kind == C.DM && C.ReadDirect(f.payload).Some? {
      CStrOfNulFree(C.ReadDirect(f.payload).value.target);
      CStrOfNulFree(C.ReadDirect(f.payload).value.text);
    } else if f.kind == C.SAY && C.ReadText(f.payload).Some? {
      CStrOfNulFree(C.ReadText(f.payload).value);
    }
  }

  /** What the relation between core and bridge sees of a session. */
  predicate SameToTheCore(x: Session, y: Session) {
    y.connected == x.connected && y.name == x.name && Stream(y) == Stream(x)
  }

  lemma OwnStepMirrors(cs: seq<C.Conn>, w: World, at: seq<nat>, base: seq<nat>, v: World)
    requires Mirrors(cs, w, at, base) && |v.sessions| == |w.sessions|
    requires forall k :: 0 <= k < |w.sessions| ==> SameToTheCore(w.sessions[k], v.sessions[k])
    ensures Mirrors(cs, v, at, base)
  {
    forall i | 0 <= i < |cs| && C.Registered(cs[i]) ensures InOrder(cs[i], v.sessions[at[i]], base[i]) {
      assert SlotOk(cs[i], w.sessions[at[i]], base[i]) && SameToTheCore(w.sessions[at[i]], v.sessions[at[i]]);
    }
    forall k | 0 <= k < |w.sessions| && v.sessions[k].connected ensures w.sessions[k].connected {
      assert SameToTheCore(w.sessions[k], v.sessions[k]);
    }
    Reassembled(cs, w, at, base, cs, v);
  }

  /** A world, where in it each slot of the core stands, and what connection each of its
      sessions is or was. */
  datatype Link = Link(world: World, place: Place, origins: seq<Origin>)

  predicate Mirrored(cs: seq<C.Conn>, l: Link) {
    Mirrors(cs, l.world, l.place.at, l.place.base)
  }

  /** The books agree, and every session has its connection, live or closed. */
  predicate Traced(s: C.State, l: Link) {
    && BooksAgree(s, l.world)
    && Originates(s.clients, l.place.at, l.place.base, l.origins)
    && AllBuried(s.closed, l.world, l.origins)
  }

  predicate Tied(s: C.State, l: Link) {
    Mirrored(s.clients, l) && Ready(l.world) && Traced(s, l)
  }

  /** A step of the gateway or its browsers. */
  lemma OwnStepTraced(s: C.State, l: Link, v: World)
    requires Traced(s, l) && SameWorldBooks(l.world, v)
    requires forall k :: 0 <= k < |v.sessions| ==> SameToTheCore(l.world.sessions[k], v.sessions[k])
    ensures Traced(s, Link(v, l.place, l.origins))
  {
    forall j | 0 <= j < |v.sessions| && !v.sessions[j].connected ensures Buried(s.closed, v.sessions[j], l.origins[j]) {
      assert SameToTheCore(l.world.sessions[j], v.sessions[j]);
      BuriedStays(s.closed, s.closed, l.world.sessions[j], v.sessions[j], l.origins[j]);
    }
  }

  /** A step of the core, after which every session is traced again. */
  lemma CoreStepTraced(s: C.State, r: C.State, l: Link, v: World, keep: nat -> nat)
    requires Mirrored(s.clients, l) && Traced(s, l) && CoreClosed.Moves(s, r) && BooksAgree(r, v)
    requires Mirrors(r.clients, v, l.place.at, l.place.base) && AllTrimmed(l.world, v, keep)
    ensures Traced(r, Link(v, l.place, l.origins))
  {
    var at, base := l.place.at, l.place.base;
    OriginsStay(s, r, at, base, l.origins);
    forall j | 0 <= j < |v.sessions| && !v.sessions[j].connected ensures Buried(r.closed, v.sessions[j], l.origins[j]) {
      StaysBuried(s, r, l.world, v, at, base, l.origins, keep, j);
    }
  }

  /** The core does something the bridge does not see. */
  lemma UnseenTraced(s: C.State, r: C.State, l: Link)
    requires Mirrored(s.clients, l) && Traced(s, l) && CoreClosed.Moves(s, r) && CoreClosed.SameBooks(s, r)
    requires Mirrored(r.clients, l)
    ensures Traced(r, l)
  {
    var none := (j: nat) => 0;
    NothingTrimmed(l.world, none);
    CoreStepTraced(s, r, l, l.world, none);
  }

  lemma SendIsBridged(s: C.State, i: nat, f: Frame, l: Link) returns (m: Link)
    requires Tied(s, l) && C.Live(s, i) && s.clients[i].registered
    ensures Goes(l.world, m.world) && Mirrored(s.clients, m) && Traced(s, m)
    ensures m.place == l.place && m.origins == l.origins
    ensures Next(m.world, l.place.at, i, f) && Waiting(m.world, l.place.at[i])
  {
    var w, k := l.world, l.place.at[i];
    var a := Send(k, Typed(f));
    TypedCarries(f);
    assert AtRest(w.sessions[k]) && SlotOk(s.clients[i], w.sessions[k], l.place.base[i]);
    var v := Step(w, a);
    GoesOne(w, a);
    OwnStepMirrors(s.clients, w, l.place.at, l.place.base, v);
    OwnStepTraced(s, l, v);
    m := Link(v, l.place, l.origins);
  }

  lemma KnownTied(s: C.State, i: nat, f: Frame, l: Link, keep: nat -> nat) returns (m: Link)
    requires CoreDelivery.Sound(s) && C.Live(s, i) && s.clients[i].registered && Tied(s, l)
    ensures Tied(C.HandleFrame(s, i, f), m) && Goes(l.world, m.world)
  {
    var u := SendIsBridged(s, i, f, l);
    m := CommandTied(s, i, f, u, keep);
    GoesOn(l.world, u.world, m.world);
  }

  lemma CommandTied(s: C.State, i: nat, f: Frame, l: Link, keep: nat -> nat) returns (m: Link)
    requires CoreDelivery.Sound(s) && C.Live(s, i) && s.clients[i].registered
    requires Mirrored(s.clients, l) && Traced(s, l)
    requires Next(l.world, l.place.at, i, f) && Waiting(l.world, l.place.at[i])
    ensures Tied(C.HandleFrame(s, i, f), m) && Goes(l.world, m.world)
  {
    var r, w, k, cuts := C.HandleFrame(s, i, f), l.world, l.place.at[i], Capped(l.world, keep);
    CappedCaps(w, keep);
    var actions, v := KnownIsBridged(s, i, f, w, l.place.at, l.place.base, cuts);
    CoreGoes(w, actions, v);
    SpendsReady(w, k, cuts, actions, v);
    CommandBooks(w, actions, v, k, cuts);
    BooksGoOn(s, r, w, v, actions[0], k);
    CommandTrims(w, actions, v, k, cuts);
    CoreClosed.FrameMoves(s, i, f);
    CoreStepTraced(s, r, l, v, cuts);
    m := Link(v, l.place, l.origins);
  }

  /** A newcomer can send at once; at the gateway, its endpoint is entered. */
  lemma OpenTied(cs: seq<C.Conn>, w: World, user: Bytes, gateway: bool, place: Place) returns (v: World)
    requires Ready(w) && Enabled(w, Open(user, gateway))
    requires Mirrors(cs, Step(w, Open(user, gateway)), place.at, place.base)
    ensures Goes(w, v) && Ready(v) && Mirrors(cs, v, place.at, place.base)
    ensures |v.sessions| == |w.sessions| + 1 && v.sessions[..|w.sessions|] == w.sessions
    ensures v.sessions[|w.sessions|].connected && v.broadcasts == w.broadcasts && v.deliveries == w.deliveries
  {
    var u := Step(w, Open(user, gateway));
    GoesOne(w, Open(user, gateway));
    v := u;
    if gateway {
      var a := Start(|w.sessions|);
      GoesOne(u, a);
      GoesOn(w, u, Step(u, a));
      v := Step(u, a);
      OwnStepMirrors(cs, u, place.at, place.base, v);
    }
  }

  /** The newcomer is session |w.sessions|, and everybody else who they were. */
  lemma NewcomerTraced(s: C.State, i: nat, t: C.State, r: C.State, l: Link, v: World, q: Place)
    requires Mirrored(s.clients, l) && Traced(s, l) && C.Live(s, i) && !s.clients[i].registered
    requires |t.clients| == |s.clients| && t.closed == s.closed && CoreClosed.SameBooks(s, t)
    requires t.clients == s.clients[i := t.clients[i]] && t.clients[i].history == s.clients[i].history
    requires CoreClosed.Moves(t, r) && CoreClosed.SameBooks(t, r)
    requires |v.sessions| == |l.world.sessions| + 1 && v.sessions[..|l.world.sessions|] == l.world.sessions
    requires v.sessions[|l.world.sessions|].connected
    requires v.broadcasts == l.world.broadcasts && v.deliveries == l.world.deliveries
    requires |l.place.at| == |l.place.base| == |q.base| == |s.clients|
    requires q == Place(l.place.at[i := |l.world.sessions|], l.place.base[i := q.base[i]])
    ensures Traced(r, Link(v, q, l.origins + [Origin(s.clients[i].history.serial, q.base[i])]))
  {
    var n := |l.world.sessions|;
    var origins := l.origins + [Origin(s.clients[i].history.serial, q.base[i])];
    forall j | 0 <= j < |r.clients| && C.Registered(r.clients[j])
      ensures q.at[j] < |origins| && origins[q.at[j]] == Origin(r.clients[j].history.serial, q.base[j])
    {
      assert CoreClosed.Accounted(t.clients[j], r.clients[j], r.closed);
    }
    forall j | 0 <= j < |v.sessions| && !v.sessions[j].connected ensures Buried(r.closed, v.sessions[j], origins[j]) {
      assert j < n && v.sessions[j] == v.sessions[..n][j];
      BuriedStays(s.closed, r.closed, l.world.sessions[j], v.sessions[j], l.origins[j]);
    }
  }

  /** A first HELLO or NICK. */
  lemma FirstNameTied(s: C.State, i: nat, f: Frame, l: Link, gateway: bool) returns (m: Link)
    requires CoreDelivery.Sound(s) && C.Live(s, i) && !s.clients[i].registered && Tied(s, l)
    requires f.kind == C.HELLO || f.kind == C.NICK
    ensures Tied(C.HandleFrame(s, i, f), m) && Goes(l.world, m.world)
  {
    var r := C.HandleFrame(s, i, f);
    var actions, v, q := FirstNameIsBridged(s, i, f, l.world, l.place, gateway);
    GoesNowhere(l.world);
    if actions == [] {
      FirstNameMoves(s, i, f);
      UnseenTraced(s, r, l);
      m := l;
    } else {
      assert actions[1..] == [];
      m := JoinedTied(s, i, f, l, actions[0], q);
    }
  }

  lemma JoinedTied(s: C.State, i: nat, f: Frame, l: Link, a: Action, q: Place) returns (m: Link)
    requires CoreDelivery.Sound(s) && C.Live(s, i) && !s.clients[i].registered && Tied(s, l)
    requires (f.kind == C.HELLO || f.kind == C.NICK) && Granted(s, i, f)
    requires a.Open? && Enabled(l.world, a)
    requires |l.place.at| == |l.place.base| == |q.base| == |s.clients|
    requires q == Place(l.place.at[i := |l.world.sessions|], l.place.base[i := q.base[i]])
    requires Mirrors(C.HandleFrame(s, i, f).clients, Step(l.world, a), q.at, q.base)
    ensures Tied(C.HandleFrame(s, i, f), m) && Goes(l.world, m.world)
  {
    var r, name := C.HandleFrame(s, i, f), C.ReadName(f.payload, C.NAME_CAP).value;
    var t := C.Update(s, i, C.Rename(s.clients[i], name));
    var v := OpenTied(r.clients, l.world, a.user, a.gateway, q);
    FirstNameIsQuiet(s, i, f, name);
    CoreClosed.DeliverMoves(t, i, Welcome(f.kind));
    NewcomerTraced(s, i, t, r, l, v, q);
    m := Link(v, q, l.origins + [Origin(s.clients[i].history.serial, q.base[i])]);
  }

  /** The newcomer was refused, or dropped for the answer. */
  lemma FirstNameMoves(s: C.State, i: nat, f: Frame)
    requires CoreDelivery.Sound(s) && C.Live(s, i) && !s.clients[i].registered
    requires f.kind == C.HELLO || f.kind == C.NICK
    requires i < |C.HandleFrame(s, i, f).clients| && !C.Registered(C.HandleFrame(s, i, f).clients[i])
    ensures CoreClosed.Moves(s, C.HandleFrame(s, i, f)) && CoreClosed.SameBooks(s, C.HandleFrame(s, i, f))
  {
    var r := C.HandleFrame(s, i, f);
    NamingOutcome(s, i, f);
    if Granted(s, i, f) {
      var name := C.ReadName(f.payload, C.NAME_CAP).value;
      var t := C.Update(s, i, C.Rename(s.clients[i], name));
      FirstNameIsQuiet(s, i, f, name);
      CoreClosed.DeliverMoves(t, i, Welcome(f.kind));
      forall j | 0 <= j < |s.clients| ensures CoreClosed.Accounted(s.clients[j], r.clients[j], r.closed) {
        assert CoreClosed.Accounted(t.clients[j], r.clients[j], r.closed);
      }
    } else {
      CoreClosed.DeliverMoves(s, i, Frame(C.ERROR, Ascii("invalid username")));
      CoreClosed.DeliverMoves(s, i, Frame(C.ERROR, Ascii("username already in use")));
    }
  }

  lemma StrangerTied(s: C.State, i: nat, f: Frame, l: Link, gateway: bool) returns (m: Link)
    requires CoreDelivery.Sound(s) && C.Live(s, i) && !s.clients[i].registered && Tied(s, l)
    ensures Tied(C.HandleFrame(s, i, f), m) && Goes(l.world, m.world)
  {
    if f.kind == C.HELLO || f.kind == C.NICK {
      m := FirstNameTied(s, i, f, l, gateway);
    } else {
      m := l;
      GoesNowhere(l.world);
      StrangerIsBridged(s, i, f, l.world, l.place.at, l.place.base);
      StrangerMoves(s, i, f);
      UnseenTraced(s, C.HandleFrame(s, i, f), l);
    }
  }

  lemma StrangerMoves(s: C.State, i: nat, f: Frame)
    requires CoreDelivery.Sound(s) && C.Live(s, i) && !s.clients[i].registered && f.kind !in [C.HELLO, C.NICK]
    ensures CoreClosed.Moves(s, C.HandleFrame(s, i, f)) && CoreClosed.SameBooks(s, C.HandleFrame(s, i, f))
  {
    C.HandlerOf(s, i, f);
    CoreClosed.FrameMoves(s, i, f);
    CoreClosed.SayMoves(s, i, f.payload);
    CoreClosed.DmMoves(s, i, f.payload);
  }
}
