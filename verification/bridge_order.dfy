/** Broadcasts are saved in the order they were made. */
module BridgeOrder {
  import opened Bytes
  import opened Bridge
  import opened BridgeInvariant
  import opened BridgeSaves
  import opened BridgePairing

  /** The broadcasts that session i made, oldest first. */
  function SaidBy(broadcasts: seq<Broadcast>, i: nat): seq<nat> {
    if broadcasts == [] then []
    else
      var n := |broadcasts| - 1;
      SaidBy(broadcasts[..n], i) + if broadcasts[n].from == i then [n] else []
  }

  /** The broadcasts among some events that carry a user's own name. */
  function Own(events: seq<Event>, user: Bytes): seq<nat> {
    if events == [] then []
    else
      var n := |events| - 1;
      Own(events[..n], user)
      + if events[n].ChatEvent? && events[n].sender == user then [events[n].tag] else []
  }

  /** The broadcasts that session i has saved, oldest row first. */
  function SavedChats(rows: seq<Row>, i: nat): seq<nat> {
    if rows == [] then []
    else
      var n := |rows| - 1;
      SavedChats(rows[..n], i) + if rows[n].writer == i && rows[n].cause.ChatEvent? then [rows[n].cause.tag] else []
  }

  /** A session never renamed gets back its own broadcasts, in order, up to where the core
      closed it. */
  predicate EchoesOf(broadcasts: seq<Broadcast>, i: nat, x: Session) {
    !x.renamed ==>
    && Own(Stream(x), x.user) <= SaidBy(broadcasts, i)
    && (x.connected ==> Own(Stream(x), x.user) == SaidBy(broadcasts, i))
  }

  predicate InOrder(w: World, j: nat)
    requires j < |w.sessions|
  {
    && EchoesOf(w.broadcasts, j, w.sessions[j])
    && SavedChats(w.rows, j) == Own(w.sessions[j].seen, w.sessions[j].user)
  }

  predicate OrderOk(w: World) {
    forall j :: 0 <= j < |w.sessions| ==> InOrder(w, j)
  }

  // ---------------------------------------------------------------- one session

  lemma OwnAppend(events: seq<Event>, e: Event, user: Bytes)
    ensures Own(events + [e], user) == Own(events, user) + if e.ChatEvent? && e.sender == user then [e.tag] else []
  {
    assert (events + [e])[..|events|] == events;
  }

  lemma {:induction false} OwnOfPrefix(events: seq<Event>, n: nat, user: Bytes)
    requires n <= |events|
    ensures Own(events[..n], user) <= Own(events, user)
  {
    if n < |events| {
      OwnOfPrefix(events[..|events| - 1], n, user);
      assert events[..|events| - 1][..n] == events[..n];
    } else {
      assert events[..n] == events;
    }
  }

  lemma PutEchoes(bs: seq<Broadcast>, i: nat, x: Session, e: Event)
    requires !(e.ChatEvent? && e.sender == x.user)
    ensures EchoesOf(bs, i, Put(x, e)) <==> EchoesOf(bs, i, x)
  {
    assert Stream(Put(x, e)) == Stream(x) + [e];
    OwnAppend(Stream(x), e, x.user);
  }

  lemma CutEchoes(bs: seq<Broadcast>, i: nat, x: Session, keep: nat)
    requires EchoesOf(bs, i, x)
    ensures EchoesOf(bs, i, Cut(x, keep))
  {
    var k := Stream(Cut(x, keep));
    CutIsPrefix(x, keep);
    OwnOfPrefix(Stream(x), |k|, x.user);
    assert Stream(x)[..|k|] == k;
  }

  lemma SaidByAppend(bs: seq<Broadcast>, b: Broadcast, i: nat)
    ensures SaidBy(bs + [b], i) == SaidBy(bs, i) + if b.from == i then [|bs|] else []
  {
    assert (bs + [b])[..|bs|] == bs;
  }

  lemma {:induction false} SaidByNobody(w: World, bs: seq<Broadcast>, i: nat)
    requires forall t :: 0 <= t < |bs| ==> BroadcastOk(w, bs[t])
    requires i >= |w.sessions|
    ensures SaidBy(bs, i) == []
  {
    if bs != [] {
      assert BroadcastOk(w, bs[|bs| - 1]);
      SaidByNobody(w, bs[..|bs| - 1], i);
    }
  }

  lemma {:induction false} SavedByNobody(w: World, rows: seq<Row>, i: nat)
    requires forall k :: 0 <= k < |rows| ==> RowKnown(w, rows[k])
    requires i >= |w.sessions|
    ensures SavedChats(rows, i) == []
  {
    if rows != [] {
      assert RowKnown(w, rows[|rows| - 1]);
      SavedByNobody(w, rows[..|rows| - 1], i);
    }
  }

  // ---------------------------------------------------------------- one step

  lemma DeliveredEchoes(w: World, i: nat, to: nat, dropped: Option<nat>, j: nat)
    requires Addressed(w, i, to) && j < |w.sessions| && EchoesOf(w.broadcasts, j, w.sessions[j])
    ensures var v := Delivered(w, i, to, dropped);
            j < |v.sessions| && v.broadcasts == w.broadcasts && EchoesOf(w.broadcasts, j, v.sessions[j])
  {
    DeliveredSession(w, i, to, dropped, j);
    var x, tag := w.sessions[j], |w.deliveries|;
    var e := DmEvent(tag, w.sessions[i].name, CStr(w.sessions[i].toCore[0].dm.text));
    PutEchoes(w.broadcasts, j, x, e);
    var y := if j == to then Put(x, e) else x;
    if j == i {
      assert Stream(Take(y)) == Stream(y);
      PutEchoes(w.broadcasts, j, Take(y), DmSent(tag));
      if dropped.Some? { CutEchoes(w.broadcasts, j, Take(y), dropped.value); }
    }
  }

  /** A member hears a broadcast; it is its own or somebody else's. */
  lemma HeardOwn(bs: seq<Broadcast>, j: nat, x: Session, e: Event, own: bool)
    requires EchoesOf(bs, j, x) && !x.renamed && x.connected && e.ChatEvent? && e.tag == |bs|
    requires e.sender == x.user <==> own
    ensures Own(Stream(Put(x, e)), x.user) == SaidBy(bs, j) + if own then [|bs|] else []
  {
    assert Stream(Put(x, e)) == Stream(x) + [e];
    OwnAppend(Stream(x), e, x.user);
  }

  lemma SaidEchoes(w: World, i: nat, channel: Bytes, members: set<nat>, drops: map<nat, nat>, j: nat)
    requires Sane(w) && Enabled(w, Say(i, channel, members, drops))
    requires j < |w.sessions| && EchoesOf(w.broadcasts, j, w.sessions[j])
    ensures var v := Said(w, i, channel, members, drops);
            j < |v.sessions| && EchoesOf(v.broadcasts, j, v.sessions[j])
  {
    var u, v := Taken(w, i), Said(w, i, channel, members, drops);
    var x, e := u.sessions[j], Echo(v, |w.broadcasts|);
    assert Stream(x) == Stream(w.sessions[j]);
    SaidByAppend(w.broadcasts, v.broadcasts[|w.broadcasts|], j);
    assert v.sessions[j] == Heard(x, j, e, members, drops);
    if j in drops {
      CutEchoes(w.broadcasts, j, x, drops[j]);
    } else if j in members {
      NamesDiffer(w, i, j);
      if !x.renamed { HeardOwn(w.broadcasts, j, x, e, i == j); }
    }
  }

  lemma TakeEchoes(bs: seq<Broadcast>, i: nat, x: Session, e: Event, keep: nat)
    requires x.toCore != [] && EchoesOf(bs, i, x) && !e.ChatEvent?
    ensures EchoesOf(bs, i, Take(x)) && EchoesOf(bs, i, Put(Take(x), e)) && EchoesOf(bs, i, Cut(Take(x), keep))
  {
    assert Stream(Take(x)) == Stream(x);
    PutEchoes(bs, i, Take(x), e);
    CutEchoes(bs, i, Take(x), keep);
  }

  lemma ReplyEchoes(w: World, a: Action, j: nat)
    requires Enabled(w, a) && (a.Refuse? || a.Answer? || a.Notify? || a.Protest? || a.Drop?)
    requires j < |w.sessions| && EchoesOf(w.broadcasts, j, w.sessions[j])
    ensures j < |Step(w, a).sessions| && EchoesOf(Step(w, a).broadcasts, j, Step(w, a).sessions[j])
  {
    if j == a.i {
      var x, bs := w.sessions[j], w.broadcasts;
      match a
      case Refuse(i) => TakeEchoes(bs, j, x, DmRefused(x.toCore[0].dm), 0);
      case Answer(i, error) => TakeEchoes(bs, j, x, if error then OtherError else Other, 0);
      case Notify(i) => PutEchoes(bs, j, x, Other);
      case Protest(i) => PutEchoes(bs, j, x, OtherError);
      case Drop(i, keep) => CutEchoes(bs, j, x, keep);
    }
  }

  lemma OverflowEchoes(w: World, i: nat, to: nat, keep: nat, j: nat)
    requires Enabled(w, Overflow(i, to, keep)) && j < |w.sessions| && EchoesOf(w.broadcasts, j, w.sessions[j])
    ensures var v := Step(w, Overflow(i, to, keep));
            j < |v.sessions| && EchoesOf(v.broadcasts, j, v.sessions[j])
  {
    var x, bs := w.sessions[j], w.broadcasts;
    if j == i { TakeEchoes(bs, j, x, Other, keep); } else if j == to { CutEchoes(bs, j, x, keep); }
  }

  lemma NickEchoes(w: World, i: nat, name: Bytes)
    requires Enabled(w, Nick(i, name)) && EchoesOf(w.broadcasts, i, w.sessions[i])
    ensures var v := Step(w, Nick(i, name));
            i < |v.sessions| && EchoesOf(v.broadcasts, i, v.sessions[i])
  {
    var x := Renamed(w, i, name).sessions[i];
    assert Stream(x) == Stream(w.sessions[i]);
    PutEchoes(w.broadcasts, i, x, Other);
  }

  lemma StepEchoes(w: World, a: Action, j: nat)
    requires Sane(w) && Enabled(w, a) && j < |w.sessions| && EchoesOf(w.broadcasts, j, w.sessions[j])
    ensures j < |Step(w, a).sessions| && EchoesOf(Step(w, a).broadcasts, j, Step(w, a).sessions[j])
  {
    match a
    case Deliver(i, to, dropped) => DeliveredEchoes(w, i, to, dropped, j);
    case Say(i, channel, members, drops) => SaidEchoes(w, i, channel, members, drops, j);
    case Handle(i) => assert Stream(Step(w, a).sessions[j]) == Stream(w.sessions[j]);
    case Open(_, _) =>
    case Start(_) =>
    case Send(_, _) =>
    case End(_, _) =>
    case Late(_, _, _) =>
    case Abandon(_) =>
    case Nick(i, name) => if j == i { NickEchoes(w, i, name); }
    case Overflow(i, to, keep) => OverflowEchoes(w, i, to, keep, j);
    case _ => ReplyEchoes(w, a, j);
  }

  lemma OpenedEchoes(w: World, a: Action)
    requires Sane(w) && SavesOk(w) && Enabled(w, a) && a.Open?
    ensures var v, n := Step(w, a), |w.sessions|;
            && |v.sessions| == n + 1
            && EchoesOf(v.broadcasts, n, v.sessions[n])
            && SavedChats(v.rows, n) == Own(v.sessions[n].seen, v.sessions[n].user)
  {
    SaidByNobody(w, w.broadcasts, |w.sessions|);
    SavedByNobody(w, w.rows, |w.sessions|);
  }

  lemma SavedMore(rows: seq<Row>, saves: seq<Saved>, e: Event, i: nat, j: nat)
    ensures SavedChats(rows + Rows(saves, e, i), j)
         == SavedChats(rows, j) + if saves != [] && i == j && e.ChatEvent? then [e.tag] else []
  {
    var more := Rows(saves, e, i);
    if more == [] {
      assert rows + more == rows;
    } else {
      assert (rows + more)[..|rows|] == rows;
    }
  }

  lemma HandledOrder(w: World, i: nat, j: nat)
    requires Enabled(w, Handle(i)) && j < |w.sessions|
    requires SavedChats(w.rows, j) == Own(w.sessions[j].seen, w.sessions[j].user)
    ensures var v := Handled(w, i);
            j < |v.sessions| && SavedChats(v.rows, j) == Own(v.sessions[j].seen, v.sessions[j].user)
  {
    var x := w.sessions[i];
    var e := x.fromCore[0];
    OwnAppend(x.seen, e, x.user);
    SavedMore(w.rows, OnEvent(x.user, w.active, x.pending, e).saves, e, i, j);
  }

  lemma StepSavesOrder(w: World, a: Action, j: nat)
    requires Sane(w) && Enabled(w, a) && j < |w.sessions|
    requires SavedChats(w.rows, j) == Own(w.sessions[j].seen, w.sessions[j].user)
    ensures var v := Step(w, a);
            j < |v.sessions| && SavedChats(v.rows, j) == Own(v.sessions[j].seen, v.sessions[j].user)
  {
    if a.Handle? {
      HandledOrder(w, a.i, j);
    } else {
      StepIsQuiet(w, a);
      assert SameSession(w.sessions[j], Step(w, a).sessions[j]);
    }
  }

  lemma SessionCount(w: World, a: Action)
    requires Enabled(w, a)
    ensures |Step(w, a).sessions| == |w.sessions| + if a.Open? then 1 else 0
  {
    if !a.Open? && !a.Start? && !a.End? { StatusKept(w, a); }
  }

  lemma SessionOrder(w: World, a: Action, j: nat)
    requires Sane(w) && SavesOk(w) && Enabled(w, a) && j < |Step(w, a).sessions|
    requires j < |w.sessions| ==> InOrder(w, j)
    ensures InOrder(Step(w, a), j)
  {
    SessionCount(w, a);
    if j < |w.sessions| {
      StepEchoes(w, a, j);
      StepSavesOrder(w, a, j);
    } else {
      OpenedEchoes(w, a);
    }
  }

  lemma StepOrder(w: World, a: Action)
    requires Sane(w) && SavesOk(w) && OrderOk(w) && Enabled(w, a)
    ensures OrderOk(Step(w, a))
  {
    forall j | 0 <= j < |Step(w, a).sessions| ensures InOrder(Step(w, a), j) {
      SessionOrder(w, a, j);
    }
  }
}
