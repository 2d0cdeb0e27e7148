/** Replies and pending_dms: when they stay in step, and what is saved while they do. */
module BridgePairing {
  import opened Bytes
  import opened Bridge
  import opened BridgeInvariant
  import opened BridgeSaves

  /** The DMs that the replies among some events answer. */
  function Replies(deliveries: seq<Delivery>, events: seq<Event>): seq<Pending> {
    if events == [] then [] else Reply(deliveries, events[0]) + Replies(deliveries, events[1..])
  }

  function Reply(deliveries: seq<Delivery>, e: Event): seq<Pending> {
    match e
    case DmSent(t) => if t < |deliveries| then [deliveries[t].dm] else []
    case DmRefused(dm) => [dm]
    case _ => []
  }

  function Dms(commands: seq<Command>): seq<Pending> {
    if commands == [] then []
    else (if commands[0].DmCommand? then [commands[0].dm] else []) + Dms(commands[1..])
  }

  /** The DMs a session will still get a reply to, in the order of the replies. */
  function Owed(d: seq<Delivery>, x: Session): seq<Pending> {
    Replies(d, x.fromCore) + if x.connected then Dms(x.toCore) else []
  }

  /** pending_dms holds exactly the DMs that are owed a reply; once the core has closed the
      connection, some of its last entries will never get one. */
  predicate Matches(d: seq<Delivery>, x: Session) {
    x.gateway ==> Owed(d, x) <= x.pending && (x.connected ==> Owed(d, x) == x.pending)
  }

  predicate InStep(w: World, i: nat)
    requires i < |w.sessions|
  {
    Matches(w.deliveries, w.sessions[i])
  }

  /** What takes a session that stays connected out of step: a DM without a reply, the error
      of another command, or a DM that is remembered but never sent. */
  predicate Spoils(w: World, a: Action, i: nat)
    requires i < |w.sessions|
  {
    var x := w.sessions[i];
    || (a.Overflow? && a.i == i && a.to != i)
    || (a.Handle? && a.i == i && x.fromCore != [] && x.fromCore[0].OtherError? && x.pending != [])
    || (a.Late? && a.i == i && a.command.DmCommand? && !a.reaches)
  }

  lemma {:induction false} RepliesConcat(d: seq<Delivery>, a: seq<Event>, b: seq<Event>)
    ensures Replies(d, a + b) == Replies(d, a) + Replies(d, b)
  {
    if a == [] {
      assert a + b == b;
    } else {
      assert (a + b)[1..] == a[1..] + b;
      RepliesConcat(d, a[1..], b);
      ConcatAssociates(Reply(d, a[0]), Replies(d, a[1..]), Replies(d, b));
    }
  }

  lemma {:induction false} DmsConcat(a: seq<Command>, b: seq<Command>)
    ensures Dms(a + b) == Dms(a) + Dms(b)
  {
    if a == [] {
      assert a + b == b;
    } else {
      assert (a + b)[1..] == a[1..] + b;
      DmsConcat(a[1..], b);
      ConcatAssociates(if a[0].DmCommand? then [a[0].dm] else [], Dms(a[1..]), Dms(b));
    }
  }

  lemma {:induction false} RepliesOfMore(d: seq<Delivery>, r: seq<Delivery>, events: seq<Event>)
    requires d <= r
    requires forall p :: 0 <= p < |events| && events[p].DmSent? ==> events[p].tag < |d|
    ensures Replies(r, events) == Replies(d, events)
  {
    if events != [] {
      RepliesOfMore(d, r, events[1..]);
    }
  }

  lemma RepliesOfKept(d: seq<Delivery>, events: seq<Event>, keep: nat)
    ensures Replies(d, Kept(events, keep)) <= Replies(d, events)
  {
    var k := Kept(events, keep);
    assert events == k + events[|k|..];
    RepliesConcat(d, k, events[|k|..]);
  }

  // ---------------------------------------------------------------- one session

  lemma PutOwes(d: seq<Delivery>, x: Session, e: Event)
    ensures Replies(d, Put(x, e).fromCore) == Replies(d, x.fromCore) + Reply(d, e)
  {
    RepliesConcat(d, x.fromCore, [e]);
    assert Replies(d, [e]) == Reply(d, e) + Replies(d, []);
  }

  /** A frame that answers no DM. */
  lemma PutMatches(d: seq<Delivery>, x: Session, e: Event)
    requires Reply(d, e) == []
    ensures Matches(d, Put(x, e)) <==> Matches(d, x)
  {
    PutOwes(d, x, e);
    assert Owed(d, Put(x, e)) == Owed(d, x);
  }

  lemma CutMatches(d: seq<Delivery>, x: Session, keep: nat)
    requires Matches(d, x)
    ensures Matches(d, Cut(x, keep))
  {
    RepliesOfKept(d, x.fromCore, keep);
  }

  /** One command, one reply. */
  lemma AnswerMatches(d: seq<Delivery>, x: Session, e: Event)
    requires x.connected && x.toCore != []
    requires Reply(d, e) == if x.toCore[0].DmCommand? then [x.toCore[0].dm] else []
    ensures Matches(d, Put(Take(x), e)) <==> Matches(d, x)
  {
    PutOwes(d, Take(x), e);
    assert Dms(x.toCore) == (if x.toCore[0].DmCommand? then [x.toCore[0].dm] else []) + Dms(x.toCore[1..]);
    assert Owed(d, Put(Take(x), e)) == Owed(d, x);
  }

  lemma TakeMatches(d: seq<Delivery>, x: Session)
    requires x.toCore != [] && !x.toCore[0].DmCommand?
    ensures Matches(d, Take(x)) <==> Matches(d, x)
  {
    assert Dms(x.toCore) == [] + Dms(x.toCore[1..]);
    assert Take(x).fromCore == x.fromCore && Take(x).pending == x.pending;
  }

  lemma TakeCutMatches(d: seq<Delivery>, x: Session, keep: nat)
    requires x.toCore != [] && Matches(d, x)
    ensures Matches(d, Cut(Take(x), keep))
  {
    RepliesOfKept(d, x.fromCore, keep);
  }

  lemma LongerLogMatches(w: World, v: World, i: nat)
    requires Sane(w) && i < |w.sessions| && w.deliveries <= v.deliveries
    ensures Matches(v.deliveries, w.sessions[i]) <==> Matches(w.deliveries, w.sessions[i])
  {
    var x := w.sessions[i];
    assert SessionSane(w, i);
    forall p | 0 <= p < |x.fromCore| && x.fromCore[p].DmSent? ensures x.fromCore[p].tag < |w.deliveries| {
      assert EventOk(w, i, Stream(x)[|x.seen| + p]);
    }
    RepliesOfMore(w.deliveries, v.deliveries, x.fromCore);
  }

  // ---------------------------------------------------------------- one step

  lemma DeliveredSession(w: World, i: nat, to: nat, dropped: Option<nat>, j: nat)
    requires Addressed(w, i, to) && j < |w.sessions|
    ensures var v, tag, x := Delivered(w, i, to, dropped), |w.deliveries|, w.sessions[j];
            var e := DmEvent(tag, w.sessions[i].name, CStr(w.sessions[i].toCore[0].dm.text));
            var y := if j == to then Put(x, e) else x;
            && v.deliveries == w.deliveries + [Delivery(i, to, w.sessions[i].name, w.sessions[i].toCore[0].dm)]
            && j < |v.sessions|
            && v.sessions[j] == if j != i then y
                                else if dropped.None? then Put(Take(y), DmSent(tag))
                                else Cut(Take(y), dropped.value)
  {
  }

  lemma DeliveredInStep(w: World, i: nat, to: nat, dropped: Option<nat>, j: nat)
    requires Sane(w) && Addressed(w, i, to) && j < |w.sessions| && InStep(w, j)
    ensures j < |Delivered(w, i, to, dropped).sessions| && InStep(Delivered(w, i, to, dropped), j)
  {
    DeliveredSession(w, i, to, dropped, j);
    var v, tag, x := Delivered(w, i, to, dropped), |w.deliveries|, w.sessions[j];
    var d := v.deliveries;
    var e := DmEvent(tag, w.sessions[i].name, CStr(w.sessions[i].toCore[0].dm.text));
    LongerLogMatches(w, v, j);
    PutMatches(d, x, e);
    var y := if j == to then Put(x, e) else x;
    if j == i {
      if dropped.None? { AnswerMatches(d, y, DmSent(tag)); } else { TakeCutMatches(d, y, dropped.value); }
    }
  }

  lemma SaidInStep(w: World, i: nat, channel: Bytes, members: set<nat>, drops: map<nat, nat>, j: nat)
    requires Enabled(w, Say(i, channel, members, drops)) && j < |w.sessions| && InStep(w, j)
    ensures j < |Said(w, i, channel, members, drops).sessions| && InStep(Said(w, i, channel, members, drops), j)
  {
    var u, v := Taken(w, i), Said(w, i, channel, members, drops);
    var d, e := w.deliveries, Echo(v, |w.broadcasts|);
    assert v.sessions[j] == Heard(u.sessions[j], j, e, members, drops);
    if j == i { TakeMatches(d, w.sessions[j]); }
    PutMatches(d, u.sessions[j], e);
    if j in drops { CutMatches(d, u.sessions[j], drops[j]); }
  }

  /** What one round of the core pump leaves of a session. */
  lemma RoundMatches(d: seq<Delivery>, x: Session, e: Event, y: Session)
    requires x.fromCore != [] && e == x.fromCore[0] && Matches(d, x)
    requires e.DmSent? ==> e.tag < |d|
    requires e.OtherError? ==> x.pending == []
    requires y.fromCore == x.fromCore[1..] && y.toCore == x.toCore
    requires y.connected == x.connected && y.gateway == x.gateway
    requires y.pending == if e.DmSent? || e.DmRefused? || e.OtherError? then Popped(x.pending) else x.pending
    ensures Matches(d, y)
  {
    assert Replies(d, x.fromCore) == Reply(d, e) + Replies(d, y.fromCore);
    assert Owed(d, x) == Reply(d, e) + Owed(d, y);
  }

  lemma HandledInStep(w: World, i: nat)
    requires Sane(w) && Enabled(w, Handle(i)) && InStep(w, i) && (w.sessions[i].gateway ==> !Spoils(w, Handle(i), i))
    ensures InStep(Handled(w, i), i)
  {
    HeadIsNew(w, i);
    RoundMatches(w.deliveries, w.sessions[i], w.sessions[i].fromCore[0], Handled(w, i).sessions[i]);
  }

  lemma SentInStep(w: World, i: nat, c: Command)
    requires Enabled(w, Send(i, c)) && InStep(w, i)
    ensures InStep(Step(w, Send(i, c)), i)
  {
    DmsConcat(w.sessions[i].toCore, [c]);
    assert Dms([c]) == (if c.DmCommand? then [c.dm] else []) + Dms([]);
  }

  lemma LateInStep(w: World, i: nat, c: Command, reaches: bool)
    requires Enabled(w, Late(i, c, reaches)) && InStep(w, i) && (w.sessions[i].connected && c.DmCommand? ==> reaches)
    ensures InStep(Step(w, Late(i, c, reaches)), i)
  {
    DmsConcat(w.sessions[i].toCore, [c]);
    assert Dms([c]) == (if c.DmCommand? then [c.dm] else []) + Dms([]);
  }

  lemma OverflowInStep(w: World, i: nat, to: nat, keep: nat, j: nat)
    requires Enabled(w, Overflow(i, to, keep)) && j < |w.sessions| && InStep(w, j)
    requires w.sessions[j].gateway && j == i ==> to == i
    ensures InStep(Step(w, Overflow(i, to, keep)), j)
  {
    if w.sessions[j].gateway {
      if j == i {
        TakeCutMatches(w.deliveries, w.sessions[j], keep);
      } else if j == to {
        CutMatches(w.deliveries, w.sessions[j], keep);
      }
    }
  }

  /** No step but those two takes a session out of step. */
  lemma StepInStep(w: World, a: Action, j: nat)
    requires Sane(w) && Enabled(w, a) && j < |w.sessions| && InStep(w, j)
    requires w.sessions[j].gateway ==> !Spoils(w, a, j)
    ensures j < |Step(w, a).sessions| && InStep(Step(w, a), j)
  {
    if a.Deliver? { DeliveredInStep(w, a.i, a.to, a.dropped, j); }
    else if a.Overflow? { OverflowInStep(w, a.i, a.to, a.keep, j); }
    else if a.Say? { SaidInStep(w, a.i, a.channel, a.members, a.drops, j); }
    else if Answering(a) { if j == a.i { ReplyInStep(w, a); } }
    else { OwnInStep(w, a, j); }
  }

  /** Steps of the gateway and its browsers. */
  lemma OwnInStep(w: World, a: Action, j: nat)
    requires Sane(w) && Enabled(w, a) && (Plain(a) || a.Handle?) && j < |w.sessions| && InStep(w, j)
    requires w.sessions[j].gateway ==> !Spoils(w, a, j)
    ensures j < |Step(w, a).sessions| && InStep(Step(w, a), j)
  {
    if !a.Open? && j == a.i {
      if a.Handle? { HandledInStep(w, j); }
      else if a.Send? { SentInStep(w, j, a.command); }
      else if a.Late? { LateInStep(w, j, a.command, a.reaches); }
    }
  }

  lemma AnswerInStep(w: World, a: Action)
    requires Enabled(w, a) && (a.Refuse? || a.Answer? || a.Nick?) && a.i < |w.sessions| && InStep(w, a.i)
    ensures a.i < |Step(w, a).sessions| && InStep(Step(w, a), a.i)
  {
    var d, x := w.deliveries, w.sessions[a.i];
    if a.Refuse? {
      AnswerMatches(d, x, DmRefused(x.toCore[0].dm));
    } else {
      AnswerMatches(d, x, if a.Answer? && a.error then OtherError else Other);
    }
  }

  /** Steps of the core that answer one command, or none. */
  lemma ReplyInStep(w: World, a: Action)
    requires Enabled(w, a) && (a.Refuse? || a.Answer? || a.Nick? || a.Protest? || a.Notify? || a.Drop?)
    requires a.i < |w.sessions| && InStep(w, a.i)
    ensures a.i < |Step(w, a).sessions| && InStep(Step(w, a), a.i)
  {
    var d, x := w.deliveries, w.sessions[a.i];
    if a.Protest? { PutMatches(d, x, OtherError); }
    else if a.Notify? { PutMatches(d, x, Other); }
    else if a.Drop? { CutMatches(d, x, a.keep); }
    else { AnswerInStep(w, a); }
  }

  lemma OverflowOutOfStep(w: World, i: nat, to: nat, keep: nat)
    requires Enabled(w, Overflow(i, to, keep)) && to != i && w.sessions[i].gateway && InStep(w, i)
    ensures !InStep(Step(w, Overflow(i, to, keep)), i)
  {
    var x := w.sessions[i];
    assert Step(w, Overflow(i, to, keep)).sessions[i] == Take(x);
    assert |Owed(w.deliveries, Take(x))| == |Owed(w.deliveries, x)| - 1;
  }

  lemma LateOutOfStep(w: World, i: nat, c: Command)
    requires Enabled(w, Late(i, c, false)) && c.DmCommand?
    requires InStep(w, i) && w.sessions[i].gateway && w.sessions[i].connected
    ensures !InStep(Step(w, Late(i, c, false)), i)
  {
    var x, y := w.sessions[i], Step(w, Late(i, c, false)).sessions[i];
    assert Owed(w.deliveries, y) == x.pending;
    assert |y.pending| == |x.pending| + 1;
  }

  lemma ErrorOutOfStep(w: World, i: nat)
    requires Enabled(w, Handle(i)) && w.sessions[i].connected && InStep(w, i) && Spoils(w, Handle(i), i)
    ensures !InStep(Step(w, Handle(i)), i)
  {
    var x, y := w.sessions[i], Handled(w, i).sessions[i];
    ErrorIsOwedNothing(w.deliveries, x, y);
  }

  /** An error that answers no DM takes an entry off pending_dms and nothing off what is owed. */
  lemma ErrorIsOwedNothing(d: seq<Delivery>, x: Session, y: Session)
    requires x.fromCore != [] && x.fromCore[0].OtherError? && x.pending != []
    requires y == x.(fromCore := x.fromCore[1..], seen := y.seen, pending := x.pending[1..])
    ensures Owed(d, y) == Owed(d, x) && |y.pending| == |x.pending| - 1
  {
    assert Replies(d, x.fromCore) == [] + Replies(d, x.fromCore[1..]);
  }

  /** The two assumptions are exact: for a session that stays connected, each of the two
      steps they exclude does take it out of step. */
  lemma InStepExactly(w: World, a: Action, j: nat)
    requires Sane(w) && Enabled(w, a) && j < |w.sessions| && InStep(w, j)
    requires w.sessions[j].gateway && w.sessions[j].connected
    ensures j < |Step(w, a).sessions| && (InStep(Step(w, a), j) <==> !Spoils(w, a, j))
  {
    StepSane(w, a);
    if !Spoils(w, a, j) {
      StepInStep(w, a, j);
    } else if a.Overflow? {
      OverflowOutOfStep(w, a.i, a.to, a.keep);
    } else if a.Late? {
      LateOutOfStep(w, j, a.command);
    } else {
      ErrorOutOfStep(w, j);
    }
  }

  // ---------------------------------------------------------------- what a confirmation saves

  /** In step, the pending DM that a confirmation takes is the one delivered. */
  predicate PairedOk(w: World) {
    && (forall j :: 0 <= j < |w.sessions| && !w.sessions[j].deaf ==> InStep(w, j))
    && (forall t :: 0 <= t < |w.deliveries| ==> DeliveryOk(w, w.deliveries[t]) && PairedRow(w, t))
  }

  predicate PairedRow(w: World, t: nat)
    requires t < |w.deliveries| && DeliveryOk(w, w.deliveries[t])
  {
    RowsOf(w.rows, DmSent(t)) == if Confirmed(w, t) then [SenderRow(w, t)] else []
  }

  lemma QuietPairedRow(w: World, a: Action, t: nat)
    requires Sane(w) && SavesOk(w) && PairedOk(w) && Enabled(w, a) && !a.Handle? && t < |Step(w, a).deliveries|
    ensures DeliveryOk(Step(w, a), Step(w, a).deliveries[t]) && PairedRow(Step(w, a), t)
  {
    var v := Step(w, a);
    StepSane(w, a);
    StepIsQuiet(w, a);
    assert DeliveryOk(v, v.deliveries[t]);
    if t < |w.deliveries| {
      assert DeliveryOk(w, w.deliveries[t]) && PairedRow(w, t);
      assert SameSession(w.sessions[w.deliveries[t].from], v.sessions[w.deliveries[t].from]);
    } else {
      NewTagHasNoRows(w, DmSent(t));
    }
  }

  lemma HandledPairedRow(w: World, i: nat, t: nat)
    requires Sane(w) && SavesOk(w) && PairedOk(w) && Enabled(w, Handle(i)) && t < |w.deliveries|
    ensures DeliveryOk(Handled(w, i), w.deliveries[t]) && PairedRow(Handled(w, i), t)
  {
    var e := w.sessions[i].fromCore[0];
    assert DeliveryOk(w, w.deliveries[t]) && PairedRow(w, t) && InStep(w, i);
    HandledSane(w, i);
    assert DeliveryOk(Handled(w, i), Handled(w, i).deliveries[t]);
    HeadIsNew(w, i);
    HandledAdds(w, i, DmSent(t), w.deliveries[t].from);
    if e == DmSent(t) { ConfirmationMeetsItsDm(w, i); }
  }

  /** In step, a confirmation finds its own DM at the front. */
  lemma ConfirmationMeetsItsDm(w: World, i: nat)
    requires i < |w.sessions| && InStep(w, i) && w.sessions[i].gateway && w.sessions[i].fromCore != []
    requires w.sessions[i].fromCore[0].DmSent? && w.sessions[i].fromCore[0].tag < |w.deliveries|
    ensures var x := w.sessions[i];
            x.pending != [] && x.pending[0] == w.deliveries[x.fromCore[0].tag].dm
  {
    var x, d := w.sessions[i], w.deliveries;
    assert Replies(d, x.fromCore) == [d[x.fromCore[0].tag].dm] + Replies(d, x.fromCore[1..]);
  }

  lemma StaysInStep(w: World, a: Action, j: nat)
    requires Sane(w) && PairedOk(w) && Enabled(w, a) && Paired(w, a) && j < |w.sessions|
    ensures j < |Step(w, a).sessions| && (!Step(w, a).sessions[j].deaf ==> InStep(Step(w, a), j))
  {
    StepSane(w, a);
    assert SameSession(w.sessions[j], Step(w, a).sessions[j]);
    if !Step(w, a).sessions[j].deaf { StepInStep(w, a, j); }
  }

  lemma AllStayInStep(w: World, a: Action)
    requires Sane(w) && PairedOk(w) && Enabled(w, a) && Paired(w, a)
    ensures forall j :: 0 <= j < |Step(w, a).sessions| && !Step(w, a).sessions[j].deaf ==> InStep(Step(w, a), j)
  {
    StepSane(w, a);
    forall j | 0 <= j < |Step(w, a).sessions| && !Step(w, a).sessions[j].deaf ensures InStep(Step(w, a), j) {
      if j < |w.sessions| { StaysInStep(w, a, j); }
    }
  }

  lemma AllRowsStayPaired(w: World, a: Action, t: nat)
    requires Sane(w) && SavesOk(w) && PairedOk(w) && Enabled(w, a) && t < |Step(w, a).deliveries|
    ensures DeliveryOk(Step(w, a), Step(w, a).deliveries[t]) && PairedRow(Step(w, a), t)
  {
    if a.Handle? { HandledPairedRow(w, a.i, t); } else { QuietPairedRow(w, a, t); }
  }

  lemma StepPaired(w: World, a: Action)
    requires Sane(w) && SavesOk(w) && PairedOk(w) && Enabled(w, a) && Paired(w, a)
    ensures PairedOk(Step(w, a))
  {
    var v := Step(w, a);
    AllStayInStep(w, a);
    forall t | 0 <= t < |v.deliveries| ensures DeliveryOk(v, v.deliveries[t]) && PairedRow(v, t) {
      AllRowsStayPaired(w, a, t);
    }
  }
}
