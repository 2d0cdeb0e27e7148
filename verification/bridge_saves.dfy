/** Which rows the bridge has saved, event by event. */
module BridgeSaves {
  import opened Bytes
  import opened Bridge
  import opened BridgeInvariant

  /** The rows that an event caused. */
  function RowsOf(rows: seq<Row>, e: Event): seq<Row> {
    if rows == [] then []
    else
      var n := |rows| - 1;
      RowsOf(rows[..n], e) + if rows[n].cause == e then [rows[n]] else []
  }

  /** The rows that an event caused in one session. */
  function RowsBy(rows: seq<Row>, e: Event, j: nat): seq<Row> {
    if rows == [] then []
    else
      var n := |rows| - 1;
      RowsBy(rows[..n], e, j) + if rows[n].cause == e && rows[n].writer == j then [rows[n]] else []
  }

  /** The row session j saves of a broadcast. */
  function ChatRow(w: World, t: nat, j: nat): Row
    requires t < |w.broadcasts|
  {
    var b := w.broadcasts[t];
    Row(SavedChat(b.channel, b.sender, b.text), Echo(w, t), j)
  }

  /** The row the sender's session saves: the text as the sender typed it. */
  function SenderRow(w: World, t: nat): Row
    requires t < |w.deliveries| && w.deliveries[t].from < |w.sessions|
  {
    var d := w.deliveries[t];
    Row(SavedDm(w.sessions[d.from].user, d.dm.target, d.dm.text), DmSent(t), d.from)
  }

  /** The row the recipient's session saves: the text as the core delivered it. */
  function RecipientRow(w: World, t: nat): Row
    requires t < |w.deliveries| && w.deliveries[t].to < |w.sessions|
  {
    var d := w.deliveries[t];
    Row(SavedDm(d.sender, w.sessions[d.to].user, CStr(d.dm.text)), Receipt(w, t), d.to)
  }

  /** Session j has handled broadcast t. */
  predicate Heeded(w: World, t: nat, j: nat)
    requires t < |w.broadcasts|
  {
    j < |w.sessions| && Echo(w, t) in w.sessions[j].seen
  }

  /** Session j has handled broadcast t and takes it for its own. */
  predicate Claims(w: World, t: nat, j: nat)
    requires t < |w.broadcasts|
  {
    Heeded(w, t, j) && w.sessions[j].user == w.broadcasts[t].sender
  }

  predicate Confirmed(w: World, t: nat)
    requires t < |w.deliveries|
  {
    w.deliveries[t].from < |w.sessions| && DmSent(t) in w.sessions[w.deliveries[t].from].seen
  }

  predicate Received(w: World, t: nat)
    requires t < |w.deliveries|
  {
    w.deliveries[t].to < |w.sessions| && Receipt(w, t) in w.sessions[w.deliveries[t].to].seen
  }

  predicate SenderCounted(w: World, t: nat)
    requires t < |w.deliveries|
  {
    w.deliveries[t].from < |w.sessions| && Counted(w.sessions[w.deliveries[t].from])
  }

  /** No gateway session has ever had the name. */
  predicate NeverAtGateway(w: World, user: Bytes) {
    forall j :: 0 <= j < |w.sessions| && w.sessions[j].gateway ==> w.sessions[j].user != user
  }

  // ---------------------------------------------------------------- the invariant

  /** Session j saves broadcast t once if it takes it for its own, and otherwise never. */
  predicate EchoOk(w: World, t: nat, j: nat)
    requires t < |w.broadcasts|
  {
    RowsBy(w.rows, Echo(w, t), j) == if Claims(w, t, j) then [ChatRow(w, t, j)] else []
  }

  /** The recipient's session saves only what it handled, only if the sender's session was
      not counted then, and always if nobody of the sender's name was ever at the gateway. */
  predicate ReceiptOk(w: World, t: nat)
    requires t < |w.deliveries| && DeliveryOk(w, w.deliveries[t])
  {
    var saved, d := RowsOf(w.rows, Receipt(w, t)), w.deliveries[t];
    && (saved == []
        || (saved == [RecipientRow(w, t)] && Received(w, t) && (!w.sessions[d.from].renamed ==> !SenderCounted(w, t))))
    && (Received(w, t) && NeverAtGateway(w, d.sender) ==> saved != [])
  }

  /** A confirmation saves at most once, from the sender's session. */
  predicate ConfirmationOk(w: World, t: nat)
    requires t < |w.deliveries|
  {
    var saved := RowsOf(w.rows, DmSent(t));
    saved == [] || (|saved| == 1 && saved[0].writer == w.deliveries[t].from && Confirmed(w, t))
  }

  predicate DmOk(w: World, t: nat)
    requires t < |w.deliveries|
  {
    DeliveryOk(w, w.deliveries[t]) && ReceiptOk(w, t) && ConfirmationOk(w, t)
  }

  /** Every row was caused by an event its writer has handled. */
  predicate RowKnown(w: World, r: Row) {
    r.writer < |w.sessions| && r.cause in w.sessions[r.writer].seen
  }

  predicate SavesOk(w: World) {
    && (forall k :: 0 <= k < |w.rows| ==> RowKnown(w, w.rows[k]))
    && (forall t, j :: 0 <= t < |w.broadcasts| && 0 <= j < |w.sessions| ==> EchoOk(w, t, j))
    && (forall t :: 0 <= t < |w.deliveries| ==> DmOk(w, t))
  }

  // ---------------------------------------------------------------- steps that save nothing

  lemma {:induction false} NoRowsOf(rows: seq<Row>, e: Event)
    requires forall k :: 0 <= k < |rows| ==> rows[k].cause != e
    ensures RowsOf(rows, e) == []
  {
    if rows != [] {
      NoRowsOf(rows[..|rows| - 1], e);
    }
  }

  lemma {:induction false} RowsByAreRowsOf(rows: seq<Row>, e: Event, j: nat)
    ensures |RowsBy(rows, e, j)| <= |RowsOf(rows, e)|
  {
    if rows != [] {
      RowsByAreRowsOf(rows[..|rows| - 1], e, j);
    }
  }

  lemma SeenIsOk(w: World, j: nat, e: Event)
    requires Sane(w) && j < |w.sessions| && e in w.sessions[j].seen
    ensures EventOk(w, j, e)
  {
    var x := w.sessions[j];
    assert SessionSane(w, j);
    var p :| 0 <= p < |x.seen| && x.seen[p] == e;
    assert Stream(x)[p] == e;
  }

  /** Rows and histories are as they were; at most a broadcast or a delivery is new. */
  predicate Quiet(w: World, v: World) {
    && Extends(w, v)
    && v.rows == w.rows
    && (forall j :: 0 <= j < |w.sessions| ==> v.sessions[j].seen == w.sessions[j].seen)
    && (forall j :: |w.sessions| <= j < |v.sessions| ==> v.sessions[j].seen == [])
    && (forall j :: 0 <= j < |w.sessions| && !Counted(w.sessions[j]) && Counted(v.sessions[j])
          ==> !w.sessions[j].started)
  }

  lemma NewTagHasNoRows(w: World, e: Event)
    requires Sane(w) && SavesOk(w)
    requires match e
             case ChatEvent(t, _, _, _) => t >= |w.broadcasts|
             case DmEvent(t, _, _) => t >= |w.deliveries|
             case DmSent(t) => t >= |w.deliveries|
             case _ => false
    ensures RowsOf(w.rows, e) == []
    ensures forall j :: 0 <= j < |w.sessions| ==> e !in w.sessions[j].seen
  {
    forall k | 0 <= k < |w.rows| ensures w.rows[k].cause != e {
      assert RowKnown(w, w.rows[k]);
      SeenIsOk(w, w.rows[k].writer, w.rows[k].cause);
    }
    NoRowsOf(w.rows, e);
    forall j | 0 <= j < |w.sessions| ensures e !in w.sessions[j].seen {
      if e in w.sessions[j].seen { SeenIsOk(w, j, e); }
    }
  }

  lemma QuietEcho(w: World, v: World, t: nat, j: nat)
    requires Sane(w) && SavesOk(w) && Sane(v) && Quiet(w, v) && t < |v.broadcasts| && j < |v.sessions|
    ensures EchoOk(v, t, j)
  {
    var e := Echo(v, t);
    if t < |w.broadcasts| && j < |w.sessions| {
      assert EchoOk(w, t, j) && SameSession(w.sessions[j], v.sessions[j]);
    } else if j < |w.sessions| {
      NewTagHasNoRows(w, e);
      RowsByAreRowsOf(w.rows, e, j);
    } else {
      NewSessionHasNoRows(w, w.rows, e, j);
    }
  }

  lemma {:induction false} NewSessionHasNoRows(w: World, rows: seq<Row>, e: Event, j: nat)
    requires forall k :: 0 <= k < |rows| ==> RowKnown(w, rows[k])
    requires j >= |w.sessions|
    ensures RowsBy(rows, e, j) == []
  {
    if rows != [] {
      assert RowKnown(w, rows[|rows| - 1]);
      NewSessionHasNoRows(w, rows[..|rows| - 1], e, j);
    }
  }

  lemma QuietDm(w: World, v: World, t: nat)
    requires Sane(w) && SavesOk(w) && Sane(v) && Quiet(w, v) && t < |v.deliveries|
    requires |v.deliveries| > |w.deliveries| ==> |v.sessions| == |w.sessions|
    ensures DmOk(v, t)
  {
    assert DeliveryOk(v, v.deliveries[t]);
    if t < |w.deliveries| {
      assert DmOk(w, t);
      var d := w.deliveries[t];
      assert SameSession(w.sessions[d.from], v.sessions[d.from]) && SameSession(w.sessions[d.to], v.sessions[d.to]);
      if NeverAtGateway(v, d.sender) {
        forall j | 0 <= j < |w.sessions| && w.sessions[j].gateway ensures w.sessions[j].user != d.sender {
          assert SameSession(w.sessions[j], v.sessions[j]);
        }
      }
    } else {
      NewTagHasNoRows(w, Receipt(v, t));
      NewTagHasNoRows(w, DmSent(t));
    }
  }

  lemma QuietSaves(w: World, v: World)
    requires Sane(w) && SavesOk(w) && Sane(v) && Quiet(w, v)
    requires v.deliveries != w.deliveries ==> |v.sessions| == |w.sessions|
    ensures SavesOk(v)
  {
    forall k | 0 <= k < |v.rows| ensures RowKnown(v, v.rows[k]) {
      assert RowKnown(w, w.rows[k]);
    }
    forall t, j | 0 <= t < |v.broadcasts| && 0 <= j < |v.sessions| ensures EchoOk(v, t, j) {
      QuietEcho(w, v, t, j);
    }
    forall t | 0 <= t < |v.deliveries| ensures DmOk(v, t) {
      QuietDm(w, v, t);
    }
  }

  lemma StepIsQuiet(w: World, a: Action)
    requires Sane(w) && Enabled(w, a) && !a.Handle?
    ensures Quiet(w, Step(w, a))
    ensures Step(w, a).deliveries != w.deliveries ==> |Step(w, a).sessions| == |w.sessions|
  {
    match a
    case Deliver(i, to, dropped) => DeliveredIsQuiet(w, i, to, dropped);
    case Say(i, channel, members, drops) => SaidIsQuiet(w, i, channel, members, drops);
    case _ =>
      if Plain(a) { PlainIsQuiet(w, a); } else { ReplyIsQuiet(w, a); }
  }

  /** Steps of the gateway and of its users. */
  lemma PlainIsQuiet(w: World, a: Action)
    requires Sane(w) && Enabled(w, a) && Plain(a)
    ensures Quiet(w, Step(w, a)) && Step(w, a).deliveries == w.deliveries
  {
    PlainSane(w, a);
  }

  /** Steps of the core that change one or two streams. */
  lemma ReplyIsQuiet(w: World, a: Action)
    requires Sane(w) && Enabled(w, a)
    requires Answering(a)
    ensures Quiet(w, Step(w, a)) && Step(w, a).deliveries == w.deliveries
  {
    StepSane(w, a);
  }

  lemma DeliveredIsQuiet(w: World, i: nat, to: nat, dropped: Option<nat>)
    requires Sane(w) && Addressed(w, i, to)
    ensures Quiet(w, Delivered(w, i, to, dropped)) && |Delivered(w, i, to, dropped).sessions| == |w.sessions|
  {
    DeliveredSane(w, i, to, dropped);
    DeliveredStatus(w, i, to, dropped);
  }

  lemma SaidIsQuiet(w: World, i: nat, channel: Bytes, members: set<nat>, drops: map<nat, nat>)
    requires Sane(w) && Enabled(w, Say(i, channel, members, drops))
    ensures Quiet(w, Said(w, i, channel, members, drops))
    ensures |Said(w, i, channel, members, drops).sessions| == |w.sessions|
  {
    SaidSane(w, i, channel, members, drops);
    SaidStatus(w, i, channel, members, drops);
  }

  // ---------------------------------------------------------------- the step that saves

  /** An event with a tag comes to a session once. */
  lemma HeadIsNew(w: World, i: nat)
    requires Sane(w) && Enabled(w, Handle(i))
    ensures var e := w.sessions[i].fromCore[0];
            EventOk(w, i, e) && (e.ChatEvent? || e.DmEvent? || e.DmSent? ==> e !in w.sessions[i].seen)
  {
    var x := w.sessions[i];
    var e, n := x.fromCore[0], |x.seen|;
    assert SessionSane(w, i);
    assert Stream(x)[n] == e;
    forall p | 0 <= p < n ensures Before(x.seen[p], e) {
      assert Stream(x)[p] == x.seen[p];
    }
  }

  lemma RowsOfMore(rows: seq<Row>, saves: seq<Saved>, e: Event, i: nat, c: Event)
    ensures RowsOf(rows + Rows(saves, e, i), c) == RowsOf(rows, c) + if c == e then Rows(saves, e, i) else []
  {
    var more := Rows(saves, e, i);
    if more == [] {
      assert rows + more == rows;
    } else {
      assert (rows + more)[..|rows|] == rows;
    }
  }

  lemma RowsByMore(rows: seq<Row>, saves: seq<Saved>, e: Event, i: nat, c: Event, j: nat)
    ensures RowsBy(rows + Rows(saves, e, i), c, j)
         == RowsBy(rows, c, j) + if c == e && i == j then Rows(saves, e, i) else []
  {
    var more := Rows(saves, e, i);
    if more == [] {
      assert rows + more == rows;
    } else {
      assert (rows + more)[..|rows|] == rows;
    }
  }

  /** What handling an event adds to the rows and to the histories. */
  lemma HandledAdds(w: World, i: nat, c: Event, j: nat)
    requires Enabled(w, Handle(i)) && j < |w.sessions|
    ensures var v, x := Handled(w, i), w.sessions[i];
            var e := x.fromCore[0];
            var rows := Rows(OnEvent(x.user, w.active, x.pending, e).saves, e, i);
            && j < |v.sessions|
            && SameStatusOf(w.sessions[j], v.sessions[j])
            && (c in v.sessions[j].seen <==> c in w.sessions[j].seen || (j == i && c == e))
            && RowsOf(v.rows, c) == RowsOf(w.rows, c) + (if c == e then rows else [])
            && RowsBy(v.rows, c, j) == RowsBy(w.rows, c, j) + (if c == e && i == j then rows else [])
  {
    var x := w.sessions[i];
    var e := x.fromCore[0];
    RowsOfMore(w.rows, OnEvent(x.user, w.active, x.pending, e).saves, e, i, c);
    RowsByMore(w.rows, OnEvent(x.user, w.active, x.pending, e).saves, e, i, c, j);
    assert c in x.seen + [e] <==> c in x.seen || c == e;
  }

  lemma HandledEcho(w: World, i: nat, t: nat, j: nat)
    requires Sane(w) && SavesOk(w) && Enabled(w, Handle(i)) && t < |w.broadcasts| && j < |w.sessions|
    ensures EchoOk(Handled(w, i), t, j)
  {
    var v := Handled(w, i);
    assert EchoOk(w, t, j);
    HeadIsNew(w, i);
    HandledAdds(w, i, Echo(w, t), j);
    assert Echo(v, t) == Echo(w, t) && ChatRow(v, t, j) == ChatRow(w, t, j);
  }

  lemma NeverStays(w: World, i: nat, user: Bytes)
    requires Enabled(w, Handle(i)) && NeverAtGateway(Handled(w, i), user)
    ensures NeverAtGateway(w, user)
  {
    forall j | 0 <= j < |w.sessions| && w.sessions[j].gateway ensures w.sessions[j].user != user {
      assert SameStatusOf(w.sessions[j], Handled(w, i).sessions[j]);
    }
  }

  lemma HandledReceipt(w: World, i: nat, t: nat)
    requires Sane(w) && ActiveOk(w) && SavesOk(w) && Enabled(w, Handle(i)) && t < |w.deliveries|
    ensures DeliveryOk(Handled(w, i), w.deliveries[t]) && ReceiptOk(Handled(w, i), t)
  {
    var v, d := Handled(w, i), w.deliveries[t];
    assert DmOk(w, t);
    HandledSane(w, i);
    assert DeliveryOk(v, v.deliveries[t]);
    HeadIsNew(w, i);
    HandledAdds(w, i, Receipt(w, t), d.to);
    HandledAdds(w, i, Receipt(w, t), d.from);
    NobodyIsCounted(w, d.sender);
    if NeverAtGateway(v, d.sender) { NeverStays(w, i, d.sender); }
    assert Receipt(v, t) == Receipt(w, t) && RecipientRow(v, t) == RecipientRow(w, t);
  }

  predicate SameStatusOf(x: Session, y: Session) {
    y.user == x.user && y.gateway == x.gateway && y.renamed == x.renamed && (Counted(y) <==> Counted(x))
  }

  lemma HandledConfirmation(w: World, i: nat, t: nat)
    requires Sane(w) && SavesOk(w) && Enabled(w, Handle(i)) && t < |w.deliveries|
    ensures ConfirmationOk(Handled(w, i), t)
  {
    assert DmOk(w, t);
    HeadIsNew(w, i);
    HandledAdds(w, i, DmSent(t), w.deliveries[t].from);
  }

  lemma HandledSaves(w: World, i: nat)
    requires Sane(w) && ActiveOk(w) && SavesOk(w) && Enabled(w, Handle(i))
    ensures SavesOk(Handled(w, i))
  {
    var v := Handled(w, i);
    forall k | 0 <= k < |v.rows| ensures RowKnown(v, v.rows[k]) {
      if k < |w.rows| { assert RowKnown(w, w.rows[k]); }
    }
    forall t, j | 0 <= t < |v.broadcasts| && 0 <= j < |v.sessions| ensures EchoOk(v, t, j) {
      HandledEcho(w, i, t, j);
    }
    forall t | 0 <= t < |v.deliveries| ensures DmOk(v, t) {
      HandledReceipt(w, i, t);
      HandledConfirmation(w, i, t);
    }
  }

  lemma StepSaves(w: World, a: Action)
    requires Sane(w) && ActiveOk(w) && SavesOk(w) && Enabled(w, a)
    ensures SavesOk(Step(w, a))
  {
    StepSane(w, a);
    if a.Handle? {
      HandledSaves(w, a.i);
    } else {
      StepIsQuiet(w, a);
      QuietSaves(w, Step(w, a));
    }
  }
}
