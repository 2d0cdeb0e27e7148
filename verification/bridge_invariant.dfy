/** What every step of the bridge keeps. */
module BridgeInvariant {
  import opened Bytes
  import opened Bridge

  // ---------------------------------------------------------------- streams

  /** Everything the core has sent to a session and not taken back, handled or not. */
  function Stream(x: Session): seq<Event> {
    x.seen + x.fromCore
  }

  predicate Before(a: Event, b: Event) {
    && (a.ChatEvent? && b.ChatEvent? ==> a.tag < b.tag)
    && (a.DmEvent? && b.DmEvent? ==> a.tag < b.tag)
    && (a.DmSent? && b.DmSent? ==> a.tag < b.tag)
  }

  predicate Rising(s: seq<Event>) {
    forall p, q :: 0 <= p < q < |s| ==> Before(s[p], s[q])
  }

  predicate Fresh(s: seq<Event>, e: Event) {
    forall p :: 0 <= p < |s| ==> Before(s[p], e)
  }

  /** An event says what its broadcast or delivery says; and a session never renamed that
      sees a broadcast under its own name made it. */
  predicate EventOk(w: World, j: nat, e: Event)
    requires j < |w.sessions|
  {
    match e
    case ChatEvent(t, channel, sender, text) =>
      && t < |w.broadcasts|
      && e == Echo(w, t)
      && (!w.sessions[j].renamed && w.sessions[j].user == sender ==> w.broadcasts[t].from == j)
    case DmEvent(t, sender, text) =>
      && t < |w.deliveries|
      && e == Receipt(w, t)
      && w.deliveries[t].to == j
    case DmSent(t) => t < |w.deliveries| && w.deliveries[t].from == j
    case _ => true
  }

  function Echo(w: World, t: nat): Event
    requires t < |w.broadcasts|
  {
    var b := w.broadcasts[t];
    ChatEvent(t, b.channel, b.sender, b.text)
  }

  function Receipt(w: World, t: nat): Event
    requires t < |w.deliveries|
  {
    var d := w.deliveries[t];
    DmEvent(t, d.sender, CStr(d.dm.text))
  }

  predicate EventsOk(w: World, j: nat, s: seq<Event>)
    requires j < |w.sessions|
  {
    forall p :: 0 <= p < |s| ==> EventOk(w, j, s[p])
  }

  /** A gateway session does nothing before its endpoint is entered, and a direct client
      has no pump. */
  predicate Idle(x: Session) {
    && (x.ended ==> x.started) && (x.deaf ==> x.ended)
    && (x.gateway && !x.started ==> x.toCore == [] && x.pending == [])
    && (!(x.gateway && x.started) ==> x.seen == [])
    && (x.abandoned ==> Counted(x))
    && (!x.renamed ==> x.name == x.user)
  }

  predicate CommandsOk(x: Session) {
    forall k :: 0 <= k < |x.toCore| ==> CommandOk(x, x.toCore[k])
  }

  predicate SessionSane(w: World, j: nat)
    requires j < |w.sessions|
  {
    var x := w.sessions[j];
    EventsOk(w, j, Stream(x)) && Rising(Stream(x)) && Idle(x) && CommandsOk(x)
  }

  predicate DeliveryOk(w: World, d: Delivery) {
    && d.from < |w.sessions| && d.to < |w.sessions|
    && (!w.sessions[d.from].renamed ==> d.sender == w.sessions[d.from].user)
    && (!w.sessions[d.to].renamed ==> w.sessions[d.to].user == CStr(d.dm.target))
    && (w.sessions[d.from].gateway ==> w.sessions[d.from].started && NulFree(d.dm.target))
  }

  predicate BroadcastOk(w: World, b: Broadcast) {
    b.from < |w.sessions| && (!w.sessions[b.from].renamed ==> b.sender == w.sessions[b.from].user)
  }

  predicate NamesApart(w: World) {
    forall j, k :: 0 <= j < k < |w.sessions| && w.sessions[j].connected && w.sessions[k].connected
      ==> w.sessions[j].name != w.sessions[k].name
  }

  lemma NamesDiffer(w: World, i: nat, j: nat)
    requires Sane(w) && Connected(w, i) && Connected(w, j)
    ensures !w.sessions[j].renamed ==> (w.sessions[j].user == w.sessions[i].name <==> i == j)
  {
    assert SessionSane(w, i) && SessionSane(w, j);
  }

  predicate LogsOk(w: World) {
    && (forall t :: 0 <= t < |w.deliveries| ==> DeliveryOk(w, w.deliveries[t]))
    && (forall t :: 0 <= t < |w.broadcasts| ==> BroadcastOk(w, w.broadcasts[t]))
  }

  predicate Sane(w: World) {
    NamesApart(w) && LogsOk(w) && forall j :: 0 <= j < |w.sessions| ==> SessionSane(w, j)
  }

  /** What only grows. */
  predicate Extends(w: World, v: World) {
    && |w.sessions| <= |v.sessions|
    && w.deliveries <= v.deliveries
    && w.broadcasts <= v.broadcasts
    && forall j :: 0 <= j < |w.sessions| ==> SameSession(w.sessions[j], v.sessions[j])
  }

  predicate SameSession(x: Session, y: Session) {
    && y.user == x.user && y.gateway == x.gateway
    && (x.started ==> y.started) && (x.renamed ==> y.renamed) && (x.deaf ==> y.deaf)
  }

  lemma EventsStayOk(w: World, v: World, j: nat, s: seq<Event>)
    requires Extends(w, v) && j < |w.sessions| && EventsOk(w, j, s)
    ensures EventsOk(v, j, s)
  {
    assert SameSession(w.sessions[j], v.sessions[j]);
    forall p | 0 <= p < |s| ensures EventOk(v, j, s[p]) {
      assert EventOk(w, j, s[p]);
    }
  }

  lemma LogsStayOk(w: World, v: World)
    requires Extends(w, v) && LogsOk(w) && v.deliveries == w.deliveries && v.broadcasts == w.broadcasts
    ensures LogsOk(v)
  {
    forall t | 0 <= t < |v.deliveries| ensures DeliveryOk(v, v.deliveries[t]) {
      var d := w.deliveries[t];
      assert DeliveryOk(w, d);
      assert SameSession(w.sessions[d.from], v.sessions[d.from]) && SameSession(w.sessions[d.to], v.sessions[d.to]);
    }
    forall t | 0 <= t < |v.broadcasts| ensures BroadcastOk(v, v.broadcasts[t]) {
      assert BroadcastOk(w, w.broadcasts[t]);
      assert SameSession(w.sessions[w.broadcasts[t].from], v.sessions[w.broadcasts[t].from]);
    }
  }

  lemma PrefixSane(w: World, v: World, j: nat)
    requires Extends(w, v) && j < |w.sessions| && SessionSane(w, j)
    requires Stream(v.sessions[j]) <= Stream(w.sessions[j])
    requires Idle(v.sessions[j]) && CommandsOk(v.sessions[j])
    ensures SessionSane(v, j)
  {
    EventsStayOk(w, v, j, Stream(w.sessions[j]));
    var s, r := Stream(w.sessions[j]), Stream(v.sessions[j]);
    forall p | 0 <= p < |r| ensures EventOk(v, j, r[p]) {
      assert r[p] == s[p];
    }
    forall p, q | 0 <= p < q < |r| ensures Before(r[p], r[q]) {
      assert r[p] == s[p] && r[q] == s[q];
    }
  }

  lemma AppendSane(w: World, v: World, j: nat, e: Event)
    requires Extends(w, v) && j < |w.sessions| && SessionSane(w, j)
    requires Stream(v.sessions[j]) == Stream(w.sessions[j]) + [e]
    requires Idle(v.sessions[j]) && CommandsOk(v.sessions[j])
    requires EventOk(v, j, e) && Fresh(Stream(w.sessions[j]), e)
    ensures SessionSane(v, j)
  {
    EventsStayOk(w, v, j, Stream(w.sessions[j]));
    var s, r := Stream(w.sessions[j]), Stream(v.sessions[j]);
    forall p | 0 <= p < |r| ensures EventOk(v, j, r[p]) {
      if p < |s| { assert r[p] == s[p]; }
    }
    forall p, q | 0 <= p < q < |r| ensures Before(r[p], r[q]) {
      assert r[p] == s[p];
      if q < |s| { assert r[q] == s[q]; }
    }
  }

  lemma SentSane(w: World, i: nat, e: Event)
    requires Sane(w) && i < |w.sessions| && EventOk(w, i, e) && Fresh(Stream(w.sessions[i]), e)
    ensures Sane(Sent(w, i, e)) && Extends(w, Sent(w, i, e))
  {
    var v := Sent(w, i, e);
    LogsStayOk(w, v);
    forall j | 0 <= j < |v.sessions| ensures SessionSane(v, j) {
      if j == i {
        assert Stream(v.sessions[i]) == Stream(w.sessions[i]) + [e];
        AppendSane(w, v, i, e);
      } else {
        PrefixSane(w, v, j);
      }
    }
  }

  lemma CutIsPrefix(x: Session, keep: nat)
    ensures Stream(Cut(x, keep)) <= Stream(x)
  {
  }

  lemma ClosedSane(w: World, i: nat, keep: nat)
    requires Sane(w) && i < |w.sessions|
    ensures Sane(Closed(w, i, keep)) && Extends(w, Closed(w, i, keep))
  {
    var v := Closed(w, i, keep);
    LogsStayOk(w, v);
    CutIsPrefix(w.sessions[i], keep);
    forall j | 0 <= j < |v.sessions| ensures SessionSane(v, j) {
      PrefixSane(w, v, j);
    }
  }

  lemma TakenSane(w: World, i: nat)
    requires Sane(w) && i < |w.sessions| && w.sessions[i].toCore != []
    ensures Sane(Taken(w, i)) && Extends(w, Taken(w, i))
  {
    var v := Taken(w, i);
    LogsStayOk(w, v);
    assert SessionSane(w, i);
    forall j | 0 <= j < |v.sessions| ensures SessionSane(v, j) {
      PrefixSane(w, v, j);
    }
  }

  lemma RenamedSane(w: World, i: nat, name: Bytes)
    requires Sane(w) && Enabled(w, Nick(i, name))
    ensures Sane(Renamed(w, i, name)) && Extends(w, Renamed(w, i, name))
  {
    var v := Renamed(w, i, name);
    LogsStayOk(w, v);
    assert SessionSane(w, i);
    forall j | 0 <= j < |v.sessions| ensures SessionSane(v, j) {
      PrefixSane(w, v, j);
    }
  }

  lemma RecordedSane(w: World, i: nat, to: nat)
    requires Sane(w) && Addressed(w, i, to)
    ensures Sane(Recorded(w, i, to)) && Extends(w, Recorded(w, i, to))
  {
    TakenSane(w, i);
    var u, v := Taken(w, i), Recorded(w, i, to);
    forall j | 0 <= j < |v.sessions| ensures SessionSane(v, j) {
      PrefixSane(u, v, j);
    }
    var d := v.deliveries[|w.deliveries|];
    assert SessionSane(w, i) && SessionSane(w, to) && CommandOk(w.sessions[i], w.sessions[i].toCore[0]);
    assert DeliveryOk(v, d);
    forall t | 0 <= t < |v.deliveries| ensures DeliveryOk(v, v.deliveries[t]) {
      if t < |w.deliveries| { assert DeliveryOk(u, u.deliveries[t]); }
    }
    forall t | 0 <= t < |v.broadcasts| ensures BroadcastOk(v, v.broadcasts[t]) {
      assert BroadcastOk(u, u.broadcasts[t]);
    }
  }

  lemma DeliveredSane(w: World, i: nat, to: nat, dropped: Option<nat>)
    requires Sane(w) && Addressed(w, i, to)
    ensures Sane(Delivered(w, i, to, dropped)) && Extends(w, Delivered(w, i, to, dropped))
  {
    RecordedSane(w, i, to);
    var v, tag := Recorded(w, i, to), |w.deliveries|;
    var e := DmEvent(tag, w.sessions[i].name, CStr(w.sessions[i].toCore[0].dm.text));
    NothingFrom(w, v, to, e);
    SentSane(v, to, e);
    var u := Sent(v, to, e);
    match dropped
    case None =>
      NothingFrom(w, v, i, DmSent(tag));
      assert Stream(u.sessions[i]) == Stream(v.sessions[i]) + if i == to then [e] else [];
      SentSane(u, i, DmSent(tag));
    case Some(keep) => ClosedSane(u, i, keep);
  }

  /** A tag not given out yet is in no stream. */
  lemma NothingFrom(w: World, v: World, j: nat, e: Event)
    requires Sane(w) && Extends(w, v) && j < |w.sessions| && Stream(v.sessions[j]) == Stream(w.sessions[j])
    requires e.ChatEvent? ==> e.tag == |w.broadcasts|
    requires e.DmEvent? || e.DmSent? ==> e.tag == |w.deliveries|
    ensures Fresh(Stream(v.sessions[j]), e)
  {
    assert SessionSane(w, j);
    forall p | 0 <= p < |Stream(w.sessions[j])| ensures Before(Stream(w.sessions[j])[p], e) {
      assert EventOk(w, j, Stream(w.sessions[j])[p]);
    }
  }

  lemma HeardSane(u: World, v: World, j: nat, e: Event, members: set<nat>, drops: map<nat, nat>)
    requires Extends(u, v) && j < |u.sessions| && SessionSane(u, j)
    requires v.sessions[j] == Heard(u.sessions[j], j, e, members, drops)
    requires Fresh(Stream(u.sessions[j]), e) && (j in members ==> EventOk(v, j, e))
    ensures SessionSane(v, j)
  {
    if j in drops {
      CutIsPrefix(u.sessions[j], drops[j]);
      PrefixSane(u, v, j);
    } else if j in members {
      assert Stream(v.sessions[j]) == Stream(u.sessions[j]) + [e];
      AppendSane(u, v, j, e);
    } else {
      PrefixSane(u, v, j);
    }
  }

  /** A broadcast is heard by each member that is not dropped, and by nobody else. */
  lemma SaidParts(w: World, i: nat, channel: Bytes, members: set<nat>, drops: map<nat, nat>)
    requires Enabled(w, Say(i, channel, members, drops))
    ensures var u, v := Taken(w, i), Said(w, i, channel, members, drops);
            && |v.sessions| == |u.sessions| == |w.sessions|
            && v.deliveries == u.deliveries
            && v.broadcasts == u.broadcasts
               + [Broadcast(i, channel, w.sessions[i].name, CStr(w.sessions[i].toCore[0].text))]
            && (forall j :: 0 <= j < |u.sessions| ==>
                  v.sessions[j] == Heard(u.sessions[j], j, Echo(v, |w.broadcasts|), members, drops))
            && Extends(u, v)
  {
  }

  lemma SaidLogs(u: World, v: World, b: Broadcast)
    requires Extends(u, v) && LogsOk(u) && v.deliveries == u.deliveries && v.broadcasts == u.broadcasts + [b]
    requires BroadcastOk(v, b)
    ensures LogsOk(v)
  {
    forall t | 0 <= t < |v.deliveries| ensures DeliveryOk(v, v.deliveries[t]) {
      var d := u.deliveries[t];
      assert DeliveryOk(u, d);
      assert SameSession(u.sessions[d.from], v.sessions[d.from]) && SameSession(u.sessions[d.to], v.sessions[d.to]);
    }
    forall t | 0 <= t < |v.broadcasts| ensures BroadcastOk(v, v.broadcasts[t]) {
      if t < |u.broadcasts| {
        assert BroadcastOk(u, u.broadcasts[t]);
        assert SameSession(u.sessions[u.broadcasts[t].from], v.sessions[u.broadcasts[t].from]);
      }
    }
  }

  lemma SaidSession(w: World, i: nat, channel: Bytes, members: set<nat>, drops: map<nat, nat>, j: nat)
    requires Sane(w) && Enabled(w, Say(i, channel, members, drops)) && j < |w.sessions|
    ensures j < |Said(w, i, channel, members, drops).sessions| && SessionSane(Said(w, i, channel, members, drops), j)
  {
    TakenSane(w, i);
    SaidParts(w, i, channel, members, drops);
    var u, v := Taken(w, i), Said(w, i, channel, members, drops);
    var e := Echo(v, |w.broadcasts|);
    NothingFrom(w, u, j, e);
    if j in members { NamesDiffer(w, i, j); }
    HeardSane(u, v, j, e, members, drops);
  }

  lemma SaidSane(w: World, i: nat, channel: Bytes, members: set<nat>, drops: map<nat, nat>)
    requires Sane(w) && Enabled(w, Say(i, channel, members, drops))
    ensures Sane(Said(w, i, channel, members, drops)) && Extends(w, Said(w, i, channel, members, drops))
  {
    TakenSane(w, i);
    SaidParts(w, i, channel, members, drops);
    var u, v := Taken(w, i), Said(w, i, channel, members, drops);
    NamesDiffer(w, i, i);
    SaidLogs(u, v, v.broadcasts[|w.broadcasts|]);
    forall j | 0 <= j < |v.sessions| ensures SessionSane(v, j) {
      SaidSession(w, i, channel, members, drops, j);
    }
    SaidApart(u, v, Echo(v, |w.broadcasts|), members, drops);
  }

  lemma SaidApart(u: World, v: World, e: Event, members: set<nat>, drops: map<nat, nat>)
    requires NamesApart(u) && |v.sessions| == |u.sessions|
    requires forall j :: 0 <= j < |u.sessions| ==> v.sessions[j] == Heard(u.sessions[j], j, e, members, drops)
    ensures NamesApart(v)
  {
    assert forall j :: 0 <= j < |u.sessions| ==>
      v.sessions[j].name == u.sessions[j].name && (v.sessions[j].connected ==> u.sessions[j].connected);
  }

  lemma HandledSane(w: World, i: nat)
    requires Sane(w) && Enabled(w, Handle(i))
    ensures Sane(Handled(w, i)) && Extends(w, Handled(w, i))
  {
    var v := Handled(w, i);
    LogsStayOk(w, v);
    assert SessionSane(w, i);
    assert Stream(v.sessions[i]) == Stream(w.sessions[i]);
    forall j | 0 <= j < |v.sessions| ensures SessionSane(v, j) {
      PrefixSane(w, v, j);
    }
  }

  /** Steps that change one session and leave its streams alone. */
  predicate Plain(a: Action) {
    a.Open? || a.Start? || a.Abandon? || a.Send? || a.Late? || a.End?
  }

  lemma PlainSane(w: World, a: Action)
    requires Sane(w) && Enabled(w, a) && Plain(a)
    ensures Sane(Step(w, a)) && Extends(w, Step(w, a))
  {
    var v := Step(w, a);
    PlainExtends(w, a);
    LogsStayOk(w, v);
    forall j | 0 <= j < |v.sessions| ensures SessionSane(v, j) {
      if j < |w.sessions| {
        assert SessionSane(w, j);
        PrefixSane(w, v, j);
      }
    }
  }

  lemma PlainExtends(w: World, a: Action)
    requires Sane(w) && Enabled(w, a) && Plain(a)
    ensures Extends(w, Step(w, a))
  {
    if a.End? { assert SessionSane(w, a.i); }
  }

  /** The steps in which the core answers a command or cuts a connection. */
  predicate Answering(a: Action) {
    a.Refuse? || a.Overflow? || a.Answer? || a.Nick? || a.Protest? || a.Notify? || a.Drop?
  }

  lemma AnsweringSane(w: World, a: Action)
    requires Sane(w) && Enabled(w, a) && Answering(a)
    ensures Sane(Step(w, a)) && Extends(w, Step(w, a))
  {
    match a
    case Refuse(i) =>
      TakenSane(w, i);
      SentSane(Taken(w, i), i, DmRefused(w.sessions[i].toCore[0].dm));
    case Overflow(i, to, keep) =>
      TakenSane(w, i);
      ClosedSane(Taken(w, i), to, keep);
    case Answer(i, error) =>
      TakenSane(w, i);
      SentSane(Taken(w, i), i, if error then OtherError else Other);
    case Nick(i, name) =>
      RenamedSane(w, i, name);
      SentSane(Renamed(w, i, name), i, Other);
    case Protest(i) => SentSane(w, i, OtherError);
    case Notify(i) => SentSane(w, i, Other);
    case Drop(i, keep) => ClosedSane(w, i, keep);
  }

  lemma StepSane(w: World, a: Action)
    requires Sane(w) && Enabled(w, a)
    ensures Sane(Step(w, a)) && Extends(w, Step(w, a))
  {
    match a
    case Deliver(i, to, dropped) => DeliveredSane(w, i, to, dropped);
    case Say(i, channel, members, drops) => SaidSane(w, i, channel, members, drops);
    case Handle(i) => HandledSane(w, i);
    case _ =>
      if Answering(a) { AnsweringSane(w, a); } else { PlainSane(w, a); }
  }

  // ---------------------------------------------------------------- active_gateway_users

  function Tally(s: seq<Session>, user: Bytes): nat {
    if s == [] then 0
    else
      var n := |s| - 1;
      Tally(s[..n], user) + if Counted(s[n]) && s[n].user == user then 1 else 0
  }

  /** The dictionary counts the running sessions of every name. */
  ghost predicate ActiveOk(w: World) {
    && (forall u :: ActiveCount(w.active, u) == Tally(w.sessions, u))
    && (forall u :: u in w.active ==> w.active[u] > 0)
  }

  lemma {:induction false} CountAgrees(s: seq<Session>, r: seq<Session>, user: Bytes)
    requires SameStatus(s, r)
    ensures Tally(r, user) == Tally(s, user)
  {
    if s != [] {
      CountAgrees(s[..|s| - 1], r[..|s| - 1], user);
    }
  }

  lemma {:induction false} CountUpdated(s: seq<Session>, i: nat, y: Session, user: Bytes)
    requires i < |s| && y.user == s[i].user
    ensures Tally(s[i := y], user) + (if Counted(s[i]) && y.user == user then 1 else 0)
         == Tally(s, user) + if Counted(y) && y.user == user then 1 else 0
  {
    var n := |s| - 1;
    if i == n {
      assert s[i := y][..n] == s[..n];
    } else {
      assert s[i := y][..n] == s[..n][i := y];
      CountUpdated(s[..n], i, y, user);
    }
  }

  lemma {:induction false} CountedIsTallied(s: seq<Session>, i: nat)
    requires i < |s| && Counted(s[i])
    ensures Tally(s, s[i].user) > 0
  {
    if i < |s| - 1 {
      CountedIsTallied(s[..|s| - 1], i);
    }
  }

  /** Neither the name of a session nor whether it runs depends on its queues. */
  predicate SameStatus(s: seq<Session>, r: seq<Session>) {
    |s| == |r| && forall k :: 0 <= k < |s| ==> (Counted(r[k]) <==> Counted(s[k])) && r[k].user == s[k].user
  }

  lemma DeliveredStatus(w: World, i: nat, to: nat, dropped: Option<nat>)
    requires Addressed(w, i, to)
    ensures SameStatus(w.sessions, Delivered(w, i, to, dropped).sessions)
  {
  }

  lemma SaidStatus(w: World, i: nat, channel: Bytes, members: set<nat>, drops: map<nat, nat>)
    requires Enabled(w, Say(i, channel, members, drops))
    ensures SameStatus(w.sessions, Said(w, i, channel, members, drops).sessions)
  {
  }

  lemma StatusKept(w: World, a: Action)
    requires Enabled(w, a) && !a.Start? && !a.End? && !a.Open?
    ensures SameStatus(w.sessions, Step(w, a).sessions)
    ensures Step(w, a).active == w.active
  {
    match a
    case Deliver(i, to, dropped) => DeliveredStatus(w, i, to, dropped);
    case Say(i, channel, members, drops) => SaidStatus(w, i, channel, members, drops);
    case _ =>
  }

  lemma StartActive(w: World, i: nat)
    requires Enabled(w, Start(i)) && ActiveOk(w) && SessionSane(w, i)
    ensures ActiveOk(Step(w, Start(i)))
  {
    var v := Step(w, Start(i));
    forall u ensures ActiveCount(v.active, u) == Tally(v.sessions, u) {
      assert ActiveCount(w.active, u) == Tally(w.sessions, u);
      CountUpdated(w.sessions, i, v.sessions[i], u);
    }
  }

  lemma EndActive(w: World, i: nat, deaf: bool)
    requires Enabled(w, End(i, deaf)) && ActiveOk(w)
    ensures ActiveOk(Step(w, End(i, deaf)))
  {
    var v, user := Step(w, End(i, deaf)), w.sessions[i].user;
    CountedIsTallied(w.sessions, i);
    assert ActiveCount(w.active, user) == Tally(w.sessions, user);
    forall u ensures ActiveCount(v.active, u) == Tally(v.sessions, u) {
      assert ActiveCount(w.active, u) == Tally(w.sessions, u);
      CountUpdated(w.sessions, i, v.sessions[i], u);
    }
  }

  lemma StepActive(w: World, a: Action)
    requires Sane(w) && Enabled(w, a) && ActiveOk(w)
    ensures ActiveOk(Step(w, a))
  {
    var v := Step(w, a);
    match a
    case Start(i) => StartActive(w, i);
    case End(i, deaf) => EndActive(w, i, deaf);
    case Open(_, _) => assert v.sessions[..|w.sessions|] == w.sessions;
    case _ =>
      StatusKept(w, a);
      forall u ensures ActiveCount(v.active, u) == Tally(v.sessions, u) {
        assert ActiveCount(w.active, u) == Tally(w.sessions, u);
        CountAgrees(w.sessions, v.sessions, u);
      }
  }

  /** A name nobody runs under has no session running. */
  lemma NobodyIsCounted(w: World, user: Bytes)
    requires ActiveOk(w)
    ensures ActiveCount(w.active, user) == 0
            <==> forall j :: 0 <= j < |w.sessions| && Counted(w.sessions[j]) ==> w.sessions[j].user != user
  {
    assert ActiveCount(w.active, user) == Tally(w.sessions, user);
    forall j | 0 <= j < |w.sessions| && Counted(w.sessions[j]) && w.sessions[j].user == user
      ensures Tally(w.sessions, user) > 0
    {
      CountedIsTallied(w.sessions, j);
    }
    if Tally(w.sessions, user) > 0 {
      var j := SomeoneIsCounted(w.sessions, user);
    }
  }

  lemma {:induction false} SomeoneIsCounted(s: seq<Session>, user: Bytes) returns (j: nat)
    requires Tally(s, user) > 0
    ensures j < |s| && Counted(s[j]) && s[j].user == user
  {
    var n := |s| - 1;
    if Counted(s[n]) && s[n].user == user { j := n; } else { j := SomeoneIsCounted(s[..n], user); }
  }
}
